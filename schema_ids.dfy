/** KafkaProtobufProducer::updateSchemaIds as a specification: the map from
    topic to schema id derived from a schema listing.  Only subjects ending in
    "-value" count, keyed by the subject without that suffix, and for each
    topic the entry with the greatest version wins; the comparison is a strict
    `<`, so among equal versions the earliest entry is kept. */
module SchemaIds {

  import opened Json
  import opened Registry

  const ValueSuffix: string := "-value"

  predicate EndsWith(s: string, suffix: string)
  {
    |suffix| <= |s| && s[|s| - |suffix|..] == suffix
  }

  /** QString::endsWith("-value") followed by QString::left(length - 6). */
  function TopicOf(subject: string): (t: Option<string>)
    ensures t.Some? <==> EndsWith(subject, ValueSuffix)
    ensures t.Some? ==> t.value + ValueSuffix == subject
  {
    if EndsWith(subject, ValueSuffix) then Some(subject[..|subject| - |ValueSuffix|]) else None
  }

  /** The two maps the loop maintains: the producer's topic -> schema id
      map and the local topic -> version map. */
  datatype Resolution = Resolution(ids: map<string, int32>, versions: map<string, int32>)

  /** One iteration of the loop body. */
  function Step(r: Resolution, s: Schema): Resolution
  {
    match TopicOf(s.subject)
    case None => r
    case Some(t) =>
      if t !in r.versions || r.versions[t] < s.version
      then Resolution(r.ids[t := s.schemaId], r.versions[t := s.version])
      else r
  }

  /** The loop run over a whole listing, starting from two empty maps. */
  function Resolve(schemas: seq<Schema>): Resolution
  {
    if |schemas| == 0 then Resolution(map[], map[])
    else Step(Resolve(schemas[..|schemas| - 1]), schemas[|schemas| - 1])
  }

  ghost predicate MentionsTopic(schemas: seq<Schema>, t: string)
  {
    exists k :: 0 <= k < |schemas| && TopicOf(schemas[k].subject) == Some(t)
  }

  /** Entry k is the one the source keeps for topic t: it belongs to t, no
      entry for t has a greater version, and every earlier entry for t has a
      strictly smaller one. */
  ghost predicate IsLatest(schemas: seq<Schema>, t: string, k: int)
  {
    && 0 <= k < |schemas|
    && TopicOf(schemas[k].subject) == Some(t)
    && (forall j :: 0 <= j < |schemas| && TopicOf(schemas[j].subject) == Some(t) ==>
          schemas[j].version <= schemas[k].version)
    && (forall j :: 0 <= j < k && TopicOf(schemas[j].subject) == Some(t) ==>
          schemas[j].version < schemas[k].version)
  }

  /** What the resolved maps promise about a listing: exactly the topics of
      the "-value" subjects are keys, and each maps to the id and version of
      its latest entry (the earliest among equal versions). */
  ghost predicate ResolvesTo(schemas: seq<Schema>, r: Resolution)
  {
    && r.ids.Keys == r.versions.Keys
    && (forall t :: t in r.ids <==> MentionsTopic(schemas, t))
    && (forall t :: t in r.ids ==>
          exists k :: IsLatest(schemas, t, k) && r.ids[t] == schemas[k].schemaId && r.versions[t] == schemas[k].version)
  }

  lemma {:induction false} ResolveIsLatest(schemas: seq<Schema>)
    ensures ResolvesTo(schemas, Resolve(schemas))
  {
    if |schemas| > 0 {
      var n := |schemas| - 1;
      ResolveIsLatest(schemas[..n]);
      StepResolves(schemas[..n], schemas[n], Resolve(schemas[..n]));
      assert schemas[..n] + [schemas[n]] == schemas;
    }
  }

  lemma StepResolves(prefix: seq<Schema>, s: Schema, r0: Resolution)
    requires ResolvesTo(prefix, r0)
    ensures ResolvesTo(prefix + [s], Step(r0, s))
  {
    var r := Step(r0, s);
    StepKeys(prefix, s, r0);
    var topic := TopicOf(s.subject);
    if topic.Some? && (topic.value !in r0.versions || r0.versions[topic.value] < s.version) {
      StepUpdated(prefix, s, r0, topic.value);
    } else {
      StepUnchanged(prefix, s, r0);
    }
  }

  lemma StepKeys(prefix: seq<Schema>, s: Schema, r0: Resolution)
    requires ResolvesTo(prefix, r0)
    ensures Step(r0, s).ids.Keys == Step(r0, s).versions.Keys
    ensures forall t :: t in Step(r0, s).ids <==> MentionsTopic(prefix + [s], t)
  {
    var r := Step(r0, s);
    forall t ensures t in r.ids <==> MentionsTopic(prefix + [s], t) {
      StepMentions(prefix, s, t);
    }
  }

  lemma StepUpdated(prefix: seq<Schema>, s: Schema, r0: Resolution, u: string)
    requires ResolvesTo(prefix, r0)
    requires TopicOf(s.subject) == Some(u) && (u !in r0.versions || r0.versions[u] < s.version)
    ensures forall t :: t in Step(r0, s).ids ==>
      exists k :: (IsLatest(prefix + [s], t, k) && Step(r0, s).ids[t] == (prefix + [s])[k].schemaId &&
        Step(r0, s).versions[t] == (prefix + [s])[k].version)
  {
    var schemas := prefix + [s];
    var r := Step(r0, s);
    assert r == Resolution(r0.ids[u := s.schemaId], r0.versions[u := s.version]);
    NewEntryWins(prefix, s, u, r0);
    assert schemas[|prefix|] == s;
    forall t | t in r.ids
      ensures exists k :: IsLatest(schemas, t, k) && r.ids[t] == schemas[k].schemaId && r.versions[t] == schemas[k].version
    {
      if t != u {
        var k0 :| IsLatest(prefix, t, k0) && r0.ids[t] == prefix[k0].schemaId && r0.versions[t] == prefix[k0].version;
        EarlierEntryStays(prefix, s, t, k0);
      } else {
        assert IsLatest(schemas, t, |prefix|);
      }
    }
  }

  lemma StepUnchanged(prefix: seq<Schema>, s: Schema, r0: Resolution)
    requires ResolvesTo(prefix, r0)
    requires !(TopicOf(s.subject).Some? &&
               (TopicOf(s.subject).value !in r0.versions || r0.versions[TopicOf(s.subject).value] < s.version))
    ensures forall t :: t in Step(r0, s).ids ==>
      exists k :: (IsLatest(prefix + [s], t, k) && Step(r0, s).ids[t] == (prefix + [s])[k].schemaId &&
        Step(r0, s).versions[t] == (prefix + [s])[k].version)
  {
    assert Step(r0, s) == r0;
    forall t | t in r0.ids
      ensures exists k :: (IsLatest(prefix + [s], t, k) && r0.ids[t] == (prefix + [s])[k].schemaId &&
        r0.versions[t] == (prefix + [s])[k].version)
    {
      var k0 :| IsLatest(prefix, t, k0) && r0.ids[t] == prefix[k0].schemaId && r0.versions[t] == prefix[k0].version;
      EarlierEntryStays(prefix, s, t, k0);
    }
  }

  lemma StepMentions(prefix: seq<Schema>, s: Schema, t: string)
    ensures MentionsTopic(prefix + [s], t) <==> MentionsTopic(prefix, t) || TopicOf(s.subject) == Some(t)
  {
    var schemas := prefix + [s];
    if MentionsTopic(prefix, t) {
      var k :| 0 <= k < |prefix| && TopicOf(prefix[k].subject) == Some(t);
      assert schemas[k] == prefix[k];
    }
    if TopicOf(s.subject) == Some(t) {
      assert schemas[|prefix|] == s;
    }
    if MentionsTopic(schemas, t) && TopicOf(s.subject) != Some(t) {
      var k :| 0 <= k < |schemas| && TopicOf(schemas[k].subject) == Some(t);
      assert k < |prefix| && prefix[k] == schemas[k];
    }
  }

  lemma NewEntryWins(prefix: seq<Schema>, s: Schema, t: string, r0: Resolution)
    requires ResolvesTo(prefix, r0)
    requires TopicOf(s.subject) == Some(t)
    requires t !in r0.versions || r0.versions[t] < s.version
    ensures IsLatest(prefix + [s], t, |prefix|)
  {
    if t in r0.ids {
      var k0 :| IsLatest(prefix, t, k0) && r0.versions[t] == prefix[k0].version;
      assert prefix[k0].version < s.version;
    } else {
      assert !MentionsTopic(prefix, t);
    }
    AppendedBeatsAll(prefix, s, t);
  }

  /** An appended entry with a greater version than every earlier entry for
      its topic is the latest one. */
  lemma AppendedBeatsAll(prefix: seq<Schema>, s: Schema, t: string)
    requires TopicOf(s.subject) == Some(t)
    requires forall j :: 0 <= j < |prefix| && TopicOf(prefix[j].subject) == Some(t) ==> prefix[j].version < s.version
    ensures IsLatest(prefix + [s], t, |prefix|)
  {
    var schemas := prefix + [s];
    forall j | 0 <= j < |prefix| ensures schemas[j] == prefix[j] {
    }
    assert schemas[|prefix|] == s;
  }

  /** An entry that does not beat the kept one leaves it the latest. */
  lemma EarlierEntryStays(prefix: seq<Schema>, s: Schema, t: string, k0: int)
    requires IsLatest(prefix, t, k0)
    requires TopicOf(s.subject) == Some(t) ==> s.version <= prefix[k0].version
    ensures IsLatest(prefix + [s], t, k0) && (prefix + [s])[k0] == prefix[k0]
  {
    var schemas := prefix + [s];
    var n := |prefix|;
    assert prefix[k0] == schemas[k0];
    forall j | 0 <= j < |schemas| && TopicOf(schemas[j].subject) == Some(t)
      ensures schemas[j].version <= schemas[k0].version
    {
      if j < n { assert prefix[j] == schemas[j]; }
    }
    forall j | 0 <= j < k0 && TopicOf(schemas[j].subject) == Some(t)
      ensures schemas[j].version < schemas[k0].version
    {
      assert prefix[j] == schemas[j];
    }
  }

  /** At most one entry satisfies IsLatest, so the kept id is determined by
      the listing alone. */
  lemma LatestIsUnique(schemas: seq<Schema>, t: string, k1: int, k2: int)
    requires IsLatest(schemas, t, k1) && IsLatest(schemas, t, k2)
    ensures k1 == k2
  {
  }
}
