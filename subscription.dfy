/** The confirmation text both revisions of KafkaProxyV2::subscribe build
    from the subscription the proxy reports back: the topic names, each
    preceded by ", " unless the text is still empty. */
module Subscription {

  import opened Json
  import opened Text

  function Names(items: seq<Json>): (r: seq<string>)
    ensures |r| == |items|
    ensures forall i :: 0 <= i < |items| ==> r[i] == AsString(items[i])
  {
    if |items| == 0 then [] else Names(items[..|items| - 1]) + [AsString(items[|items| - 1])]
  }

  /** The text after the loop has run over `items`. */
  function SubscriptionText(items: seq<Json>): string
  {
    if |items| == 0 then ""
    else
      var text := SubscriptionText(items[..|items| - 1]);
      (if text != "" then text + ", " else text) + AsString(items[|items| - 1])
  }

  /** With non-empty topic names the text is the names joined with ", ", in
      the order the proxy listed them. */
  lemma {:induction false} SubscriptionIsJoin(items: seq<Json>)
    requires forall i :: 0 <= i < |items| ==> AsString(items[i]) != ""
    ensures SubscriptionText(items) == Join(Names(items), ", ")
    decreases |items|
  {
    if |items| > 1 {
      var init := items[..|items| - 1];
      SubscriptionIsJoin(init);
      assert Names(items) == Names(init) + [AsString(items[|items| - 1])];
      JoinSnoc(Names(init), AsString(items[|items| - 1]), ", ");
      assert SubscriptionText(init) != "" by {
        assert Join(Names(init), ", ")[..|Names(init)[0]|] == Names(init)[0] by {
          JoinStartsWithFirst(Names(init), ", ");
        }
      }
    } else if |items| == 1 {
      assert items[..0] == [];
    }
  }

  lemma {:induction false} JoinStartsWithFirst(parts: seq<string>, sep: string)
    requires |parts| >= 1
    ensures |Join(parts, sep)| >= |parts[0]| && Join(parts, sep)[..|parts[0]|] == parts[0]
  {
  }
}
