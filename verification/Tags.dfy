/**
 * Metric tags.  A tag set is a map from names to values; `With` overrides one entry.  Adding a map of
 * tags by a fold in sorted key order is the right-biased override, whatever order the map's keys are
 * enumerated in, and `tags` resolves every name by a fixed priority.
 */
module Tags {
  import opened Basics

  type TagSet = map<string, string>

  function With(ts: TagSet, k: string, v: string): TagSet { ts[k := v] }

  // ---------------------------------------------------------------- the order of strings

  /** Strict lexicographic order. */
  predicate Less(a: string, b: string) {
    b != [] && (a == [] || a[0] < b[0] || (a[0] == b[0] && Less(a[1..], b[1..])))
  }

  lemma {:induction false} LessIsTotal(a: string, b: string)
    ensures Less(a, b) || Less(b, a) || a == b
    ensures !(Less(a, b) && Less(b, a)) && !Less(a, a)
  {
    if a != [] && b != [] {
      LessIsTotal(a[1..], b[1..]);
      if a[0] == b[0] && a[1..] == b[1..] { assert a == [a[0]] + a[1..] == b; }
    }
    if a != [] { LessIsTotal(a[1..], a[1..]); }
  }

  lemma {:induction false} LessIsTransitive(a: string, b: string, c: string)
    requires Less(a, b) && Less(b, c)
    ensures Less(a, c)
  {
    if a != [] && a[0] == b[0] && b[0] == c[0] { LessIsTransitive(a[1..], b[1..], c[1..]); }
  }

  function Elements(keys: seq<string>): set<string> { set k | k in keys }

  predicate Sorted(keys: seq<string>) { forall i, j :: 0 <= i < j < |keys| ==> Less(keys[i], keys[j]) }

  /** A set has only one sorted enumeration. */
  lemma {:induction false} SortedIsUnique(a: seq<string>, b: seq<string>)
    requires Sorted(a) && Sorted(b) && Elements(a) == Elements(b)
    ensures a == b
  {
    if a != [] { assert a[0] in Elements(a); }
    if b != [] { assert b[0] in Elements(b); }
    if a != [] {
      var i :| 0 <= i < |b| && b[i] == a[0];
      var j :| 0 <= j < |a| && a[j] == b[0];
      LessIsTotal(a[0], b[0]);
      assert a[0] == b[0];
      TailSet(a);
      TailSet(b);
      SortedIsUnique(a[1..], b[1..]);
    }
  }

  lemma TailSet(a: seq<string>)
    requires Sorted(a) && a != []
    ensures Sorted(a[1..]) && Elements(a[1..]) == Elements(a) - {a[0]}
  {
    forall k | k in a[1..] ensures k != a[0] {
      var i :| 1 <= i < |a| && a[i] == k;
      LessIsTotal(a[0], a[i]);
    }
    forall k | k in a && k != a[0] ensures k in a[1..] {
      var i :| 0 <= i < |a| && a[i] == k;
      assert a[1..][i - 1] == k;
    }
  }

  // ---------------------------------------------------------------- addToTagSet

  /** Put `k` in its place. */
  method Insert(keys: seq<string>, k: string) returns (r: seq<string>)
    requires Sorted(keys) && k !in keys
    ensures Sorted(r) && Elements(r) == Elements(keys) + {k}
  {
    var i := 0;
    while i < |keys| && Less(keys[i], k)
      invariant 0 <= i <= |keys|
      invariant forall j :: 0 <= j < i ==> Less(keys[j], k)
    {
      i := i + 1;
    }
    r := keys[..i] + [k] + keys[i..];
    forall j | i <= j < |keys| ensures Less(k, keys[j]) {
      LessIsTotal(k, keys[i]);
      if i < j { LessIsTransitive(k, keys[i], keys[j]); }
    }
    assert forall x :: x in r <==> x in keys[..i] || x == k || x in keys[i..];
    assert keys == keys[..i] + keys[i..];
  }

  /** The keys of a map, in whatever order the map yields them. */
  method CollectKeys(tags: TagSet) returns (keys: seq<string>)
    ensures Elements(keys) == tags.Keys && |keys| == |tags.Keys|
  {
    keys := [];
    var rest := tags.Keys;
    while rest != {}
      invariant rest <= tags.Keys && Elements(keys) == tags.Keys - rest
      invariant |keys| + |rest| == |tags.Keys|
      decreases |rest|
    {
      var k :| k in rest;
      assert Elements(keys + [k]) == Elements(keys) + {k};
      keys, rest := keys + [k], rest - {k};
    }
  }

  lemma {:induction false} NoRepeats(keys: seq<string>, i: nat)
    requires |Elements(keys)| == |keys| && i < |keys|
    ensures keys[i] !in keys[..i]
  {
    if keys[i] in keys[..i] {
      var others := keys[..i] + keys[i + 1..];
      assert Elements(keys) == Elements(others) by {
        assert keys == keys[..i] + [keys[i]] + keys[i + 1..];
      }
      SetOfSeq(others);
    }
  }

  lemma {:induction false} SetOfSeq(keys: seq<string>)
    ensures |Elements(keys)| <= |keys|
  {
    if keys == [] {
      assert Elements(keys) == {};
    } else {
      var p, k0 := keys[..|keys| - 1], keys[|keys| - 1];
      SetOfSeq(p);
      assert Elements(keys) == Elements(p) + {k0} by { assert keys == p + [k0]; }
    }
  }

  method SortStrings(keys: seq<string>) returns (r: seq<string>)
    requires |Elements(keys)| == |keys|
    ensures Sorted(r) && Elements(r) == Elements(keys)
  {
    r := [];
    for i := 0 to |keys|
      invariant Sorted(r) && Elements(r) == Elements(keys[..i])
    {
      NoRepeats(keys, i);
      assert keys[i] in r <==> keys[i] in Elements(r);
      r := Insert(r, keys[i]);
      assert keys[..i + 1] == keys[..i] + [keys[i]];
    }
    assert keys[..|keys|] == keys;
  }

  /** The entries of `tags` under the given keys. */
  function Only(tags: TagSet, keys: seq<string>): TagSet { map k | k in keys && k in tags :: tags[k] }

  /** `ts` overridden by the entries of `tags` under the given keys. */
  function Overridden(ts: TagSet, tags: TagSet, keys: seq<string>): TagSet { ts + Only(tags, keys) }

  lemma NoKeys(ts: TagSet, tags: TagSet)
    ensures Overridden(ts, tags, []) == ts
  {}

  lemma OneMoreKey(ts: TagSet, tags: TagSet, keys: seq<string>, i: nat)
    requires i < |keys| && Elements(keys) == tags.Keys
    ensures keys[i] in tags
    ensures Overridden(ts, tags, keys[..i + 1]) == With(Overridden(ts, tags, keys[..i]), keys[i], tags[keys[i]])
  {
    assert keys[i] in Elements(keys);
    assert keys[..i + 1] == keys[..i] + [keys[i]];
    assert Only(tags, keys[..i + 1]) == Only(tags, keys[..i])[keys[i] := tags[keys[i]]];
  }

  lemma AllKeys(ts: TagSet, tags: TagSet, keys: seq<string>)
    requires Elements(keys) == tags.Keys
    ensures Overridden(ts, tags, keys[..|keys|]) == ts + tags
  {
    assert keys[..|keys|] == keys;
    forall k | k in tags ensures k in keys { assert k in Elements(keys); }
    assert Only(tags, keys) == tags;
  }

  /** `order` is the sequence of keys set, one `With` each. */
  method AddToTagSet(ts: TagSet, tags: TagSet) returns (r: TagSet, order: seq<string>)
    ensures r == ts + tags
    ensures Sorted(order) && Elements(order) == tags.Keys
  {
    hide Overridden, With, Sorted, Elements;
    var keys := CollectKeys(tags);
    order := SortStrings(keys);
    r := ts;
    NoKeys(ts, tags);
    assert order[..0] == [];
    for i := 0 to |order|
      invariant r == Overridden(ts, tags, order[..i])
    {
      OneMoreKey(ts, tags, order, i);
      r := With(r, order[i], tags[order[i]]);
    }
    AllKeys(ts, tags, order);
  }

  // ---------------------------------------------------------------- tags

  datatype ConnectOpts = ConnectOpts(host: string, port: string, tags: TagSet)

  /** The value a name gets, by decreasing priority: ip, port and host, connect tags, socket tags, proto, VU tags. */
  function Resolved(vu: TagSet, socketTags: TagSet, opts: Option<ConnectOpts>, ip: string,
      name: string): Option<string> {
    if name == "ip" && ip != "" then Some(ip)
    else if name == "port" && opts.Some? then Some(opts.value.port)
    else if name == "host" && opts.Some? then Some(opts.value.host)
    else if opts.Some? && name in opts.value.tags then Some(opts.value.tags[name])
    else if name in socketTags then Some(socketTags[name])
    else if name == "proto" then Some("TCP")
    else if name in vu then Some(vu[name])
    else None
  }

  method SocketTags(vu: TagSet, socketTags: TagSet, opts: Option<ConnectOpts>, ip: string) returns (r: TagSet)
    ensures forall name :: name in r <==> Resolved(vu, socketTags, opts, ip, name).Some?
    ensures forall name :: name in r ==> Resolved(vu, socketTags, opts, ip, name) == Some(r[name])
  {
    r := vu;
    r := With(r, "proto", "TCP");
    var added, _ := AddToTagSet(r, socketTags);
    r := added;
    if opts.Some? {
      r := With(With(r + opts.value.tags, "host", opts.value.host), "port", opts.value.port);
    }
    if |ip| > 0 { r := With(r, "ip", ip); }
  }

  // ---------------------------------------------------------------- tags of one write

  /** The tags of a write's samples: those of the VU, overridden by the operation's own. */
  method WriteTags(vu: TagSet, op: TagSet) returns (r: TagSet)
    ensures r == vu + op
  {
    var added, _ := AddToTagSet(vu, op);
    r := added;
  }

  function ConnectTags(opts: Option<ConnectOpts>): TagSet { if opts.Some? then opts.value.tags else map[] }

  /** The layering index.d.ts promises: the operation's tags over the connection's over the socket's over the VU's. */
  function Documented(vu: TagSet, socketTags: TagSet, opts: Option<ConnectOpts>, op: TagSet): TagSet {
    vu + socketTags + ConnectTags(opts) + op
  }

  /**
   * The two agree exactly when every socket and connection tag that the operation does not override is
   * already, with the same value, among the VU's.
   */
  lemma WriteTagsAsDocumentedIff(vu: TagSet, socketTags: TagSet, opts: Option<ConnectOpts>, op: TagSet)
    ensures vu + op == Documented(vu, socketTags, opts, op) <==>
            forall name :: name in socketTags + ConnectTags(opts) && name !in op ==>
              name in vu && vu[name] == (socketTags + ConnectTags(opts))[name]
  {
    var over := socketTags + ConnectTags(opts);
    var promised, actual := Documented(vu, socketTags, opts, op), vu + op;
    assert promised == vu + over + op;
    if actual == promised {
      forall name | name in over && name !in op ensures name in vu && vu[name] == over[name] {
        assert name in promised && promised[name] == over[name];
        assert name in actual;
      }
    }
    if forall name :: name in over && name !in op ==> name in vu && vu[name] == over[name] {
      assert actual.Keys == promised.Keys;
      forall name | name in promised ensures actual[name] == promised[name] {}
    }
  }

  /** A socket tag is missing from the samples of a write. */
  lemma SocketTagIsMissing()
    ensures var socketTags: TagSet := map["team" := "a"];
            var none: TagSet := map[];
            "team" in Documented(none, socketTags, None, none) && "team" !in none + none
  {}
}
