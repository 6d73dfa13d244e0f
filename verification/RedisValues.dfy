/**
 * The values of a Redis stream entry: how a message is written into them (redis/publisher.go, redis/values.go) and how
 * its metadata and payload are read back (redis/values.go).
 */
module RedisValues {
  import opened Wrappers
  import opened Messages

  type Values = map<string, Value>

  /** strings.TrimPrefix, for a key that has the prefix. */
  function Trim(prefix: string, key: string): string
    requires prefix <= key
  {
    key[|prefix|..]
  }

  // ----- what the loops compute

  function WithPrefix(prefix: string, metadata: Values): Values {
    map k | k in (set m | m in metadata :: prefix + m) && prefix <= k && Trim(prefix, k) in metadata ::
      metadata[Trim(prefix, k)]
  }

  function PrefixedStrings(prefix: string, values: Values): Values {
    map k | k in (set v | v in values && prefix <= v :: Trim(prefix, v)) && prefix + k in values &&
            values[prefix + k].Str? ::
      values[prefix + k]
  }

  function WithoutPrefix(prefix: string, values: Values): Values {
    map k | k in values && !(prefix <= k) :: values[k]
  }

  // ----- the functions of the repository

  /** MetadataWithPrefix. */
  method MetadataWithPrefix(prefix: string, metadata: Values) returns (values: Values)
    ensures values == WithPrefix(prefix, metadata)
  {
    values := map[];
    var todo := metadata.Keys;
    while todo != {}
      invariant todo <= metadata.Keys
      invariant values.Keys == set m | m in metadata && m !in todo :: prefix + m
      invariant forall m | m in metadata && m !in todo :: prefix + m in values && values[prefix + m] == metadata[m]
      decreases todo
    {
      var k :| k in todo;
      values := values[prefix + k := metadata[k]];
      todo := todo - {k};
      PrefixIsInjective(prefix, k, metadata.Keys);
    }
  }

  lemma PrefixIsInjective(prefix: string, k: string, keys: set<string>)
    ensures forall m | m in keys :: prefix + m == prefix + k ==> m == k
  {
    forall m | m in keys && prefix + m == prefix + k ensures m == k {
      assert (prefix + m)[|prefix|..] == m && (prefix + k)[|prefix|..] == k;
    }
  }

  /** PrefixMetadataExtractor. Values that are not strings are dropped. */
  method PrefixMetadataExtractor(prefix: string, values: Values) returns (metadata: Values)
    ensures metadata == PrefixedStrings(prefix, values)
  {
    metadata := map[];
    var todo := values.Keys;
    while todo != {}
      invariant todo <= values.Keys
      invariant forall k :: k in metadata <==> prefix + k in values && prefix + k !in todo && values[prefix + k].Str?
      invariant forall k | k in metadata :: metadata[k] == values[prefix + k]
      decreases todo
    {
      var v :| v in todo;
      if prefix <= v && values[v].Str? {
        metadata := metadata[Trim(prefix, v) := values[v]];
        assert prefix + Trim(prefix, v) == v;
      }
      todo := todo - {v};
    }
    forall k | k in metadata ensures k in PrefixedStrings(prefix, values) {
      assert Trim(prefix, prefix + k) == k;
    }
  }

  /** NonPrefixPayloadExtractor. */
  method NonPrefixPayloadExtractor(prefix: string, values: Values) returns (payload: Values)
    ensures payload == WithoutPrefix(prefix, values)
  {
    payload := map[];
    var todo := values.Keys;
    while todo != {}
      invariant todo <= values.Keys
      invariant payload.Keys == set k | k in values && k !in todo && !(prefix <= k)
      invariant forall k | k in payload :: payload[k] == values[k]
      decreases todo
    {
      var k :| k in todo;
      if !(prefix <= k) {
        payload := payload[k := values[k]];
      }
      todo := todo - {k};
    }
  }

  /** One of the loops of the marshaller, which copies into values and overwrites. */
  method CopyInto(values: Values, from: Values) returns (r: Values)
    ensures r == values + from
  {
    r := values;
    var todo := from.Keys;
    while todo != {}
      invariant todo <= from.Keys
      invariant r.Keys == values.Keys + (from.Keys - todo)
      invariant forall k | k in r :: r[k] == if k in from && k !in todo then from[k] else values[k]
      decreases todo
    {
      var k :| k in todo;
      r := r[k := from[k]];
      todo := todo - {k};
    }
  }

  /** The values of the MessageMarshaller: metadata first, so that payload keys overwrite it. */
  method Marshal(metadataPrefix: Option<string>, metadata: Values, payload: Values) returns (values: Values)
    ensures values == (if metadataPrefix.Some? then WithPrefix(metadataPrefix.value, metadata) else metadata) + payload
  {
    values := map[];
    if metadataPrefix.Some? {
      var metadataValues := MetadataWithPrefix(metadataPrefix.value, metadata);
      values := CopyInto(values, metadataValues);
    } else {
      values := CopyInto(values, metadata);
    }
    values := CopyInto(values, payload);
  }

  // ----- the round trip

  /** The values a message is published with. */
  function Published(prefix: string, metadata: Values, payload: Values): Values {
    WithPrefix(prefix, metadata) + payload
  }

  lemma WithPrefixHolds(prefix: string, metadata: Values, k: string)
    ensures prefix + k in WithPrefix(prefix, metadata) <==> k in metadata
    ensures k in metadata ==> WithPrefix(prefix, metadata)[prefix + k] == metadata[k]
    ensures k in WithPrefix(prefix, metadata) ==> prefix <= k
  {
    assert Trim(prefix, prefix + k) == k;
  }

  lemma InPrefixedStrings(prefix: string, values: Values, k: string)
    ensures k in PrefixedStrings(prefix, values) <==> prefix + k in values && values[prefix + k].Str?
    ensures k in PrefixedStrings(prefix, values) ==> PrefixedStrings(prefix, values)[k] == values[prefix + k]
  {
    assert Trim(prefix, prefix + k) == k;
  }

  // ----- what the broker makes of the values

  /**
   * The string that the client writes for a value that is not one, or None if it cannot be written. Reading always
   * gives strings.
   */
  type Text = nat -> Option<string>

  function TextOf(text: Text, v: Value): Option<string> {
    if v.Str? then Some(v.s) else text(v.id)
  }

  /** XADD accepts the values: there is at least one, and each of them can be written. */
  predicate Writable(text: Text, values: Values) {
    values != map[] && forall k | k in values :: TextOf(text, values[k]).Some?
  }

  /** The values of the entry, as they are read. */
  function Stored(text: Text, values: Values): Values
    requires Writable(text, values)
  {
    map k | k in values :: Str(TextOf(text, values[k]).value)
  }

  /** Exactly which payload is read back: that of the message, with everything turned into strings. */
  lemma PayloadReadBack(text: Text, prefix: string, metadata: Values, payload: Values)
    requires Writable(text, Published(prefix, metadata, payload))
    ensures var read := WithoutPrefix(prefix, Stored(text, Published(prefix, metadata, payload)));
      forall k ::
        (k in read <==> k in payload && !(prefix <= k)) && (k in read ==> Some(read[k].s) == TextOf(text, payload[k]))
  {
    assert forall k :: k in WithPrefix(prefix, metadata) ==> prefix <= k;
  }

  /**
   * Exactly which metadata is read back: all of it, as strings, and payload keys that start with the prefix take its
   * place.
   */
  lemma MetadataReadBack(text: Text, prefix: string, metadata: Values, payload: Values, k: string)
    requires Writable(text, Published(prefix, metadata, payload))
    ensures var read := PrefixedStrings(prefix, Stored(text, Published(prefix, metadata, payload)));
      && (k in read <==> prefix + k in payload || k in metadata)
      && (k in read ==>
            Some(read[k].s) == TextOf(text, if prefix + k in payload then payload[prefix + k] else metadata[k]))
  {
    WithPrefixHolds(prefix, metadata, k);
    InPrefixedStrings(prefix, Stored(text, Published(prefix, metadata, payload)), k);
  }

  predicate AllStrings(values: Values) {
    forall k | k in values :: values[k].Str?
  }

  lemma StringsAreStored(text: Text, values: Values)
    requires AllStrings(values) && values != map[]
    ensures Writable(text, values) && Stored(text, values) == values
  {
  }

  /** Both maps come back as they were. */
  ghost predicate Recovered(text: Text, prefix: string, metadata: Values, payload: Values) {
    var values := Published(prefix, metadata, payload);
    Writable(text, values) &&
    PrefixedStrings(prefix, Stored(text, values)) == metadata && WithoutPrefix(prefix, Stored(text, values)) == payload
  }

  /** There are values, all of them are strings, and no payload key starts with the prefix. */
  predicate Clean(prefix: string, metadata: Values, payload: Values) {
    && (metadata != map[] || payload != map[])
    && AllStrings(metadata) && AllStrings(payload) && forall k | k in payload :: !(prefix <= k)
  }

  lemma RecoveredMeans(text: Text, prefix: string, metadata: Values, payload: Values)
    requires Recovered(text, prefix, metadata, payload)
    ensures Clean(prefix, metadata, payload)
  {
    var stored := Stored(text, Published(prefix, metadata, payload));
    forall k | k in metadata ensures metadata[k].Str? {
      assert k in PrefixedStrings(prefix, stored);
    }
    forall k | k in payload ensures payload[k].Str? && !(prefix <= k) {
      assert k in WithoutPrefix(prefix, stored);
    }
  }

  lemma CleanIsPublished(prefix: string, metadata: Values, payload: Values)
    requires Clean(prefix, metadata, payload)
    ensures AllStrings(Published(prefix, metadata, payload)) && Published(prefix, metadata, payload) != map[]
  {
    if k :| k in metadata {
      WithPrefixHolds(prefix, metadata, k);
      assert prefix + k in Published(prefix, metadata, payload);
    }
    forall k | k in WithPrefix(prefix, metadata) ensures WithPrefix(prefix, metadata)[k].Str? {
      assert Trim(prefix, k) in metadata;
    }
  }

  lemma CleanMetadata(prefix: string, metadata: Values, payload: Values)
    requires Clean(prefix, metadata, payload)
    ensures PrefixedStrings(prefix, Published(prefix, metadata, payload)) == metadata
  {
    var read := PrefixedStrings(prefix, Published(prefix, metadata, payload));
    forall k ensures (k in read <==> k in metadata) && (k in read ==> read[k] == metadata[k]) {
      assert prefix <= prefix + k;
      WithPrefixHolds(prefix, metadata, k);
      InPrefixedStrings(prefix, Published(prefix, metadata, payload), k);
    }
  }

  lemma CleanPayload(prefix: string, metadata: Values, payload: Values)
    requires Clean(prefix, metadata, payload)
    ensures WithoutPrefix(prefix, Published(prefix, metadata, payload)) == payload
  {
    assert forall k | k in WithPrefix(prefix, metadata) :: prefix <= k;
  }

  lemma CleanIsRecovered(text: Text, prefix: string, metadata: Values, payload: Values)
    requires Clean(prefix, metadata, payload)
    ensures Recovered(text, prefix, metadata, payload)
  {
    CleanIsPublished(prefix, metadata, payload);
    StringsAreStored(text, Published(prefix, metadata, payload));
    CleanMetadata(prefix, metadata, payload);
    CleanPayload(prefix, metadata, payload);
  }

  /**
   * The round trip: publishing with MetadataWithPrefix and reading back with the two extractors recovers both maps if
   * and only if there are values, all of them are strings and no payload key starts with the prefix, whatever the
   * client writes for other values.
   */
  lemma RoundTripIff(text: Text, prefix: string, metadata: Values, payload: Values)
    ensures Recovered(text, prefix, metadata, payload) <==> Clean(prefix, metadata, payload)
  {
    if Recovered(text, prefix, metadata, payload) {
      RecoveredMeans(text, prefix, metadata, payload);
    }
    if Clean(prefix, metadata, payload) {
      CleanIsRecovered(text, prefix, metadata, payload);
    }
  }
}
