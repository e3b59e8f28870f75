/** The configuration digest: which bytes reach the hash, whatever order Go enumerates the maps in,
    and which edits of the ConfigMap and the Secret those bytes reveal. */
module Digest {
  import opened Kube

  /** SHA-256 in hexadecimal; nothing is assumed about it. */
  const SHA256: Bytes -> string

  // ---- byte-wise string order, as sort.Strings uses it

  predicate Less(a: Bytes, b: Bytes) {
    b != [] && (a == [] || a[0] < b[0] || (a[0] == b[0] && Less(a[1..], b[1..])))
  }

  lemma {:induction false} LessTotal(a: Bytes, b: Bytes)
    ensures a == b || Less(a, b) || Less(b, a)
  {
    if a != [] && b != [] && a[0] == b[0] {
      LessTotal(a[1..], b[1..]);
      assert a == [a[0]] + a[1..] && b == [b[0]] + b[1..];
    }
  }

  lemma {:induction false} LessTransitive(a: Bytes, b: Bytes, c: Bytes)
    requires Less(a, b) && Less(b, c)
    ensures Less(a, c)
  {
    if a != [] && a[0] == b[0] && b[0] == c[0] {
      LessTransitive(a[1..], b[1..], c[1..]);
    }
  }

  lemma {:induction false} LessIrreflexive(a: Bytes)
    ensures !Less(a, a)
  {
    if a != [] {
      LessIrreflexive(a[1..]);
    }
  }

  predicate Sorted(ks: seq<Bytes>) {
    forall i, j | 0 <= i < j < |ks| :: Less(ks[i], ks[j])
  }

  ghost function Elements(ks: seq<Bytes>): set<Bytes> {
    set k | k in ks
  }

  lemma NoElements(ks: seq<Bytes>)
    ensures Elements(ks) == {} <==> ks == []
  {
    if ks != [] {
      assert ks[0] in Elements(ks);
    }
  }

  /** A finite key set has only one strictly sorted enumeration. */
  lemma {:induction false} SortedUnique(a: seq<Bytes>, b: seq<Bytes>)
    requires Sorted(a) && Sorted(b) && Elements(a) == Elements(b)
    ensures a == b
  {
    if a == [] || b == [] {
      NoElements(a);
      NoElements(b);
    } else {
      HeadsAgree(a, b);
      TailElements(a);
      TailElements(b);
      SortedUnique(a[1..], b[1..]);
      assert a == [a[0]] + a[1..] && b == [b[0]] + b[1..];
    }
  }

  lemma HeadsAgree(a: seq<Bytes>, b: seq<Bytes>)
    requires Sorted(a) && Sorted(b) && Elements(a) == Elements(b) && a != [] && b != []
    ensures a[0] == b[0]
  {
    assert a[0] in Elements(b) && b[0] in Elements(a);
    var i :| 0 <= i < |b| && b[i] == a[0];
    var j :| 0 <= j < |a| && a[j] == b[0];
    if i != 0 && j != 0 {
      LessTransitive(a[0], b[0], a[0]);
      LessIrreflexive(a[0]);
    }
  }

  lemma TailElements(a: seq<Bytes>)
    requires Sorted(a) && a != []
    ensures Elements(a[1..]) == Elements(a) - {a[0]}
  {
    LessIrreflexive(a[0]);
    forall k ensures k in Elements(a[1..]) <==> k in Elements(a) - {a[0]} {
      if k in Elements(a) && k != a[0] {
        var i :| 0 <= i < |a| && a[i] == k;
        assert a[1..][i - 1] == k;
      }
    }
  }

  // ---- the sort of the key slice

  function Insert(k: Bytes, ks: seq<Bytes>): seq<Bytes> {
    if ks == [] || Less(k, ks[0]) then [k] + ks else [ks[0]] + Insert(k, ks[1..])
  }

  /** Stands for sort.Strings: an ordered rearrangement of its argument. */
  function SortStrings(ks: seq<Bytes>): seq<Bytes> {
    if ks == [] then [] else Insert(ks[0], SortStrings(ks[1..]))
  }

  lemma {:induction false} InsertSorts(k: Bytes, ks: seq<Bytes>)
    requires Sorted(ks) && k !in ks
    ensures Sorted(Insert(k, ks)) && Elements(Insert(k, ks)) == Elements(ks) + {k}
  {
    if ks != [] && Less(k, ks[0]) {
      forall j | 0 <= j < |ks| ensures Less(k, ks[j]) {
        if j > 0 { LessTransitive(k, ks[0], ks[j]); }
      }
    } else if ks != [] {
      assert ks[0] in ks;
      LessTotal(k, ks[0]);
      InsertSorts(k, ks[1..]);
      TailElements(ks);
      var rest := Insert(k, ks[1..]);
      forall j | 0 <= j < |rest| ensures Less(ks[0], rest[j]) {
        assert rest[j] in Elements(rest);
        if rest[j] != k {
          var i :| 0 <= i < |ks[1..]| && ks[1..][i] == rest[j];
          assert rest[j] == ks[i + 1];
        }
      }
      assert Elements([ks[0]] + rest) == Elements(rest) + {ks[0]};
    }
  }

  predicate Distinct(ks: seq<Bytes>) {
    forall i, j | 0 <= i < j < |ks| :: ks[i] != ks[j]
  }

  lemma {:induction false} SortStringsSorts(ks: seq<Bytes>)
    requires Distinct(ks)
    ensures Sorted(SortStrings(ks)) && Elements(SortStrings(ks)) == Elements(ks)
  {
    if ks != [] {
      SortStringsSorts(ks[1..]);
      var rest := SortStrings(ks[1..]);
      assert ks[0] !in ks[1..];
      assert ks[0] !in rest by {
        assert forall k | k in rest :: k in Elements(rest);
      }
      InsertSorts(ks[0], rest);
      assert Elements(ks) == Elements(ks[1..]) + {ks[0]} by { assert ks == [ks[0]] + ks[1..]; }
    }
  }

  // ---- the bytes written to the hash

  /** Key, value, key, value, ... along a list of keys: no delimiter, no length prefix. */
  function Stream(ks: seq<Bytes>, m: Data): Bytes
    requires forall k | k in ks :: k in m
  {
    if ks == [] then [] else ks[0] + m[ks[0]] + Stream(ks[1..], m)
  }

  /** The sorted enumeration of a map's keys; SortedUnique says there is no other. */
  ghost function SortedKeys(m: Data): (ks: seq<Bytes>)
    ensures Sorted(ks) && Elements(ks) == m.Keys
  {
    SortedKeysExist(m.Keys);
    var ks :| Sorted(ks) && Elements(ks) == m.Keys;
    ks
  }

  lemma {:induction false} SortedKeysExist(keys: set<Bytes>)
    ensures exists ks :: Sorted(ks) && Elements(ks) == keys
  {
    if keys == {} {
      assert Sorted([]) && Elements([]) == keys;
    } else {
      var k :| k in keys;
      SortedKeysExist(keys - {k});
      var ks :| Sorted(ks) && Elements(ks) == keys - {k};
      assert k !in ks by { assert k in ks ==> k in Elements(ks); }
      InsertSorts(k, ks);
      assert Elements(Insert(k, ks)) == keys;
    }
  }

  ghost function Written(m: Data): Bytes {
    assert forall k | k in SortedKeys(m) :: k in Elements(SortedKeys(m));
    Stream(SortedKeys(m), m)
  }

  /** Everything the two loops feed to the hash for one ConfigMap and one Secret. */
  ghost function Hashed(cm: Data, secret: Data): Bytes {
    Written(cm) + Written(secret)
  }

  ghost function ConfigHash(cm: Data, secret: Data): string {
    SHA256(Hashed(cm, secret))
  }

  /** Any strictly sorted enumeration of the keys writes the same bytes. */
  lemma AnySortedEnumeration(ks: seq<Bytes>, m: Data)
    requires Sorted(ks) && Elements(ks) == m.Keys
    ensures forall k | k in ks :: k in m
    ensures Stream(ks, m) == Written(m)
  {
    assert forall k | k in ks :: k in Elements(ks);
    SortedUnique(ks, SortedKeys(m));
  }

  /** The collected keys come in whatever order the range loop produced; sorting removes that choice. */
  lemma OrderIndependent(order: seq<Bytes>, m: Data)
    requires Distinct(order) && Elements(order) == m.Keys
    ensures Sorted(SortStrings(order)) && Elements(SortStrings(order)) == m.Keys
    ensures forall k | k in SortStrings(order) :: k in m
    ensures Stream(SortStrings(order), m) == Written(m)
  {
    SortStringsSorts(order);
    AnySortedEnumeration(SortStrings(order), m);
  }

  lemma {:induction false} StreamAppend(ks: seq<Bytes>, k: Bytes, m: Data)
    requires forall x | x in ks + [k] :: x in m
    ensures forall x | x in ks :: x in m
    ensures Stream(ks + [k], m) == Stream(ks, m) + k + m[k]
  {
    assert forall x | x in ks :: x in ks + [k];
    if ks != [] {
      assert (ks + [k])[1..] == ks[1..] + [k];
      StreamAppend(ks[1..], k, m);
    }
  }

  /** What a loop over `ks` has written after `i` rounds. */
  function StreamTo(ks: seq<Bytes>, i: nat, m: Data): Bytes
    requires i <= |ks| && forall k | k in ks :: k in m
  {
    if i == 0 then [] else StreamTo(ks, i - 1, m) + ks[i - 1] + m[ks[i - 1]]
  }

  lemma {:induction false} StreamToEnd(ks: seq<Bytes>, i: nat, m: Data)
    requires i <= |ks| && forall k | k in ks :: k in m
    ensures forall k | k in ks[..i] :: k in m
    ensures StreamTo(ks, i, m) == Stream(ks[..i], m)
    ensures i == |ks| ==> StreamTo(ks, i, m) == Stream(ks, m)
  {
    assert forall k | k in ks[..i] :: k in ks;
    if i > 0 {
      StreamToEnd(ks, i - 1, m);
      assert ks[..i] == ks[..i - 1] + [ks[i - 1]];
      StreamAppend(ks[..i - 1], ks[i - 1], m);
    }
    if i == |ks| {
      assert ks[..i] == ks;
    }
  }

  lemma Regroup(h: Bytes, done: Bytes, k: Bytes, v: Bytes)
    ensures h + done + k + v == h + (done + k + v)
  {
  }

  /** One `for k := range data` loop: collects the keys in an order the caller cannot choose. */
  method CollectKeys(m: Data) returns (keys: seq<Bytes>)
    ensures Distinct(keys) && Elements(keys) == m.Keys
  {
    keys := [];
    var rest := m.Keys;
    while rest != {}
      invariant Elements(keys) + rest == m.Keys
      invariant Elements(keys) !! rest
      invariant Distinct(keys)
      decreases rest
    {
      var k :| k in rest;
      assert Elements(keys + [k]) == Elements(keys) + {k};
      assert forall x | x in keys :: x in Elements(keys);
      keys := keys + [k];
      rest := rest - {k};
    }
  }

  /** Writes one map into the hash state `h`: collect, sort, write key and value. */
  method WriteData(h: Bytes, m: Data) returns (h': Bytes)
    ensures h' == h + Written(m)
  {
    var keys := CollectKeys(m);
    OrderIndependent(keys, m);
    keys := SortStrings(keys);
    h' := h;
    for i := 0 to |keys|
      invariant h' == h + StreamTo(keys, i, m)
    {
      Regroup(h, StreamTo(keys, i, m), keys[i], m[keys[i]]);
      h' := h' + keys[i];
      h' := h' + m[keys[i]];
    }
    StreamToEnd(keys, |keys|, m);
  }

  // ---- the bytes, entry by entry

  /** The order of bytes: at the first difference the smaller byte comes first, and a prefix before what it begins. */
  ghost predicate Precedes(a: Bytes, b: Bytes) {
    exists n: nat :: n <= |a| && n < |b| && a[..n] == b[..n] && (n == |a| || a[n] < b[n])
  }

  /** The sort is by that order. */
  lemma {:induction false} LessIsPrecedes(a: Bytes, b: Bytes)
    ensures Less(a, b) <==> Precedes(a, b)
  {
    if Less(a, b) {
      LessPrecedes(a, b);
    }
    if Precedes(a, b) {
      var n: nat :| n <= |a| && n < |b| && a[..n] == b[..n] && (n == |a| || a[n] < b[n]);
      PrecedesLess(a, b, n);
    }
  }

  lemma {:induction false} LessPrecedes(a: Bytes, b: Bytes)
    requires Less(a, b)
    ensures Precedes(a, b)
  {
    if a == [] || a[0] < b[0] {
      assert a[..0] == b[..0];
    } else {
      LessPrecedes(a[1..], b[1..]);
      var n: nat :| n <= |a[1..]| && n < |b[1..]| && a[1..][..n] == b[1..][..n]
        && (n == |a[1..]| || a[1..][n] < b[1..][n]);
      assert a[..n + 1] == [a[0]] + a[1..][..n] && b[..n + 1] == [b[0]] + b[1..][..n];
    }
  }

  lemma {:induction false} PrecedesLess(a: Bytes, b: Bytes, n: nat)
    requires n <= |a| && n < |b| && a[..n] == b[..n] && (n == |a| || a[n] < b[n])
    ensures Less(a, b)
  {
    if n > 0 {
      assert a[0] == a[..n][0] && b[0] == b[..n][0];
      assert a[1..][..n - 1] == a[..n][1..] && b[1..][..n - 1] == b[..n][1..];
      PrecedesLess(a[1..], b[1..], n - 1);
    }
  }

  /** `k` comes before every other key of `m`. */
  ghost predicate First(k: Bytes, m: Data) {
    k in m && forall x | x in m && x != k :: Precedes(k, x)
  }

  lemma FirstWritten(m: Data, k: Bytes)
    requires First(k, m)
    ensures Written(m) == k + m[k] + Written(m - {k})
  {
    var rest := m - {k};
    var ks := SortedKeys(rest);
    assert forall x | x in ks :: x in Elements(ks);
    forall j | 0 <= j < |ks| ensures Less(k, ks[j]) {
      assert ks[j] in Elements(ks);
      LessIsPrecedes(k, ks[j]);
    }
    assert Elements([k] + ks) == {k} + Elements(ks);
    AnySortedEnumeration([k] + ks, m);
    StreamAgrees(ks, m, rest);
    assert ([k] + ks)[1..] == ks;
  }

  lemma NothingWritten()
    ensures Written(map[]) == []
  {
    NoElements(SortedKeys(map[]));
  }

  /** The first entry of the ConfigMap comes first, key before value, then the rest of the ConfigMap and the Secret. */
  lemma ConfigMapFirst(cm: Data, secret: Data, k: Bytes)
    requires First(k, cm)
    ensures Hashed(cm, secret) == k + cm[k] + Hashed(cm - {k}, secret)
  {
    FirstWritten(cm, k);
  }

  /** Once there is nothing left of the ConfigMap, the first entry of the Secret comes, and so on. */
  lemma SecretNext(secret: Data, k: Bytes)
    requires First(k, secret)
    ensures Hashed(map[], secret) == k + secret[k] + Hashed(map[], secret - {k})
    ensures Hashed(map[], map[]) == []
  {
    FirstWritten(secret, k);
    NothingWritten();
  }

  /** The Secret's bytes follow all of the ConfigMap's. */
  lemma SecretLast(cm: Data, secret: Data)
    ensures Hashed(cm, secret) == Hashed(cm, map[]) + Hashed(map[], secret)
  {
    NothingWritten();
  }

  /** With one entry each, the digest is that of key, value, key, value. */
  lemma OneEntryEach(k: Bytes, v: Bytes, k': Bytes, v': Bytes)
    ensures ConfigHash(map[k := v], map[k' := v']) == SHA256(k + v + k' + v')
  {
    ConfigMapFirst(map[k := v], map[k' := v'], k);
    assert map[k := v] - {k} == map[];
    SecretNext(map[k' := v'], k');
    assert map[k' := v'] - {k'} == map[];
    assert Hashed(map[k := v], map[k' := v']) == k + v + k' + v';
  }

  /** Key, value, key, value, in the order of bytes, along any list of distinct keys. */
  ghost predicate Spells(ks: seq<Bytes>, m: Data, bytes: Bytes) {
    && (forall i, j | 0 <= i < j < |ks| :: Precedes(ks[i], ks[j]))
    && (set k | k in ks) == m.Keys
    && SpellsOut(ks, m, bytes)
  }

  predicate SpellsOut(ks: seq<Bytes>, m: Data, bytes: Bytes) {
    if ks == [] then bytes == []
    else ks[0] in m && (var e := ks[0] + m[ks[0]]; e <= bytes && SpellsOut(ks[1..], m, bytes[|e|..]))
  }

  /** The digest is the hash of what the sorted keys of the ConfigMap spell, followed by what those of the Secret
      spell. */
  lemma HashSpells(cm: Data, ks: seq<Bytes>, a: Bytes, secret: Data, ks': seq<Bytes>, b: Bytes)
    requires Spells(ks, cm, a) && Spells(ks', secret, b)
    ensures ConfigHash(cm, secret) == SHA256(a + b)
  {
    SpellsWritten(ks, cm, a);
    SpellsWritten(ks', secret, b);
  }

  /** Every map spells something. */
  lemma SomethingSpelled(m: Data)
    ensures Spells(SortedKeys(m), m, Written(m))
  {
    var ks := SortedKeys(m);
    forall i, j | 0 <= i < j < |ks| ensures Precedes(ks[i], ks[j]) {
      LessIsPrecedes(ks[i], ks[j]);
    }
    assert forall k | k in ks :: k in Elements(ks);
    StreamSpells(ks, m);
    hide Precedes;
  }

  lemma {:induction false} StreamSpells(ks: seq<Bytes>, m: Data)
    requires forall k | k in ks :: k in m
    ensures SpellsOut(ks, m, Stream(ks, m))
  {
    if ks != [] {
      StreamSpells(ks[1..], m);
      var e := ks[0] + m[ks[0]];
      assert Stream(ks, m)[|e|..] == Stream(ks[1..], m);
    }
  }

  lemma SpellsWritten(ks: seq<Bytes>, m: Data, bytes: Bytes)
    requires Spells(ks, m, bytes)
    ensures bytes == Written(m)
  {
    forall i, j | 0 <= i < j < |ks| ensures Less(ks[i], ks[j]) {
      LessIsPrecedes(ks[i], ks[j]);
    }
    AnySortedEnumeration(ks, m);
    SpellsStream(ks, m, bytes);
    hide Precedes;
  }

  lemma {:induction false} SpellsStream(ks: seq<Bytes>, m: Data, bytes: Bytes)
    requires SpellsOut(ks, m, bytes) && forall k | k in ks :: k in m
    ensures bytes == Stream(ks, m)
  {
    if ks != [] {
      var e := ks[0] + m[ks[0]];
      SpellsStream(ks[1..], m, bytes[|e|..]);
      assert bytes == e + bytes[|e|..];
    }
  }

  /** The two loops compute the hash of what the ConfigMap spells and then what the Secret spells. */
  method ComputeConfigHash(cm: Data, secret: Data) returns (digest: string)
    ensures digest == ConfigHash(cm, secret)
    ensures forall ks, a, ks', b | Spells(ks, cm, a) && Spells(ks', secret, b) :: digest == SHA256(a + b)
  {
    var h := WriteData([], cm);
    h := WriteData(h, secret);
    assert h == Hashed(cm, secret);
    digest := SHA256(h);
    forall ks, a, ks', b | Spells(ks, cm, a) && Spells(ks', secret, b) {
      HashSpells(cm, ks, a, secret, ks', b);
    }
    hide Spells;
  }

  // ---- what an edit does to the bytes

  lemma {:induction false} StreamSplit(a: seq<Bytes>, b: seq<Bytes>, m: Data)
    requires forall k | k in a + b :: k in m
    ensures forall k | k in a :: k in m
    ensures forall k | k in b :: k in m
    ensures Stream(a + b, m) == Stream(a, m) + Stream(b, m)
  {
    assert forall k | k in a :: k in a + b;
    assert forall k | k in b :: k in a + b;
    if a == [] {
      assert a + b == b;
    } else {
      assert (a + b)[1..] == a[1..] + b;
      StreamSplit(a[1..], b, m);
    }
  }

  /** Entries at other keys do not matter to a stream. */
  lemma {:induction false} StreamAgrees(ks: seq<Bytes>, m: Data, m': Data)
    requires forall k | k in ks :: k in m && k in m' && m[k] == m'[k]
    ensures Stream(ks, m) == Stream(ks, m')
  {
    if ks != [] {
      StreamAgrees(ks[1..], m, m');
    }
  }

  /** Taking one key out of a strictly sorted enumeration. */
  lemma DropMiddle(before: seq<Bytes>, k: Bytes, after: seq<Bytes>)
    requires Sorted(before + [k] + after)
    ensures k !in before && k !in after
    ensures Sorted(before + after)
    ensures Elements(before + after) == Elements(before + [k] + after) - {k}
  {
    var ks := before + [k] + after;
    LessIrreflexive(k);
    forall i | 0 <= i < |before| ensures before[i] != k {
      assert ks[i] == before[i] && ks[|before|] == k;
    }
    forall i | 0 <= i < |after| ensures after[i] != k {
      assert ks[|before| + 1 + i] == after[i] && ks[|before|] == k;
    }
    forall i, j | 0 <= i < j < |before + after| ensures Less((before + after)[i], (before + after)[j]) {
      var i' := if i < |before| then i else i + 1;
      var j' := if j < |before| then j else j + 1;
      assert ks[i'] == (before + after)[i] && ks[j'] == (before + after)[j];
    }
  }

  /** Where a key sits in the sorted enumeration. */
  lemma SplitAtKey(m: Data, k: Bytes) returns (before: seq<Bytes>, after: seq<Bytes>)
    requires k in m
    ensures before + [k] + after == SortedKeys(m)
    ensures k !in before && k !in after
    ensures forall x | x in before || x in after :: x in m
    ensures Sorted(before + after) && Elements(before + after) == m.Keys - {k}
  {
    var ks := SortedKeys(m);
    assert k in Elements(ks);
    var i :| 0 <= i < |ks| && ks[i] == k;
    before, after := ks[..i], ks[i + 1..];
    assert ks == before + [k] + after;
    DropMiddle(before, k, after);
    assert forall x | x in before || x in after :: x in Elements(before + after);
  }

  /** The bytes of a map around the entry for one of its keys; the surroundings do not contain that key. */
  lemma AroundKey(m: Data, k: Bytes) returns (before: seq<Bytes>, after: seq<Bytes>)
    requires k in m
    ensures before + [k] + after == SortedKeys(m)
    ensures k !in before && k !in after
    ensures forall x | x in before || x in after :: x in m
    ensures Sorted(before + after) && Elements(before + after) == m.Keys - {k}
    ensures Written(m) == Stream(before, m) + k + m[k] + Stream(after, m)
  {
    before, after := SplitAtKey(m, k);
    StreamAround(before, k, after, m);
  }

  lemma StreamAround(before: seq<Bytes>, k: Bytes, after: seq<Bytes>, m: Data)
    requires k in m && forall x | x in before || x in after :: x in m
    ensures forall x | x in before + [k] + after :: x in m
    ensures Stream(before + [k] + after, m) == Stream(before, m) + k + m[k] + Stream(after, m)
  {
    StreamAppend(before, k, m);
    StreamSplit(before + [k], after, m);
  }

  /** Replacing one value always changes the bytes written for that map. */
  lemma ReplaceChanges(m: Data, k: Bytes, v: Bytes)
    requires k in m
    ensures Written(m[k := v]) == Written(m) <==> v == m[k]
  {
    var m' := m[k := v];
    var before, after := AroundKey(m, k);
    var ks := before + [k] + after;
    AnySortedEnumeration(ks, m');
    StreamAround(before, k, after, m');
    StreamAgrees(before, m, m');
    StreamAgrees(after, m, m');
    if v == m[k] {
      assert m' == m;
    } else if Written(m') == Written(m) {
      Sandwich(Stream(before, m) + k, m[k], v, Stream(after, m));
    }
  }

  lemma Sandwich(p: Bytes, x: Bytes, y: Bytes, q: Bytes)
    requires p + x + q == p + y + q
    ensures x == y
  {
    assert |x| == |y|;
    assert x == (p + x + q)[|p|..|p| + |x|];
    assert y == (p + y + q)[|p|..|p| + |y|];
  }

  /** Removing an entry (or, read backwards, inserting one) changes the bytes exactly when the entry is not empty. */
  lemma RemoveChanges(m: Data, k: Bytes)
    requires k in m
    ensures |Written(m - {k})| + |k| + |m[k]| == |Written(m)|
    ensures Written(m - {k}) == Written(m) <==> k + m[k] == []
  {
    var m' := m - {k};
    var before, after := AroundKey(m, k);
    assert m'.Keys == m.Keys - {k};
    AnySortedEnumeration(before + after, m');
    StreamSplit(before, after, m');
    StreamAgrees(before, m, m');
    StreamAgrees(after, m, m');
    if k + m[k] == [] {
      assert k == [] && m[k] == [];
      assert Stream(before, m) + k + m[k] + Stream(after, m) == Stream(before, m) + Stream(after, m);
    }
  }

  /** One user edit of the data of a ConfigMap or a Secret. */
  datatype Edit = Put(key: Bytes, val: Bytes) | Drop(key: Bytes)

  function Apply(m: Data, e: Edit): Data {
    match e
    case Put(k, v) => m[k := v]
    case Drop(k) => m - {k}
  }

  /** Put of a new key is Drop read backwards. */
  lemma InsertChanges(m: Data, k: Bytes, v: Bytes)
    requires k !in m
    ensures Written(m[k := v]) == Written(m) <==> k + v == []
  {
    assert m[k := v] - {k} == m;
    RemoveChanges(m[k := v], k);
  }

  /** The condition under which an edit leaves the written bytes alone; keys are never empty in Kubernetes. */
  predicate Invisible(m: Data, e: Edit) {
    match e
    case Put(k, v) => if k in m then m[k] == v else k + v == []
    case Drop(k) => k !in m || k + m[k] == []
  }

  lemma EditChanges(m: Data, e: Edit)
    ensures Written(Apply(m, e)) == Written(m) <==> Invisible(m, e)
  {
    match e
    case Put(k, v) => if k in m { ReplaceChanges(m, k, v); } else { InsertChanges(m, k, v); }
    case Drop(k) => if k in m { RemoveChanges(m, k); } else { assert m - {k} == m; }
  }

  /** The hash separates the two byte strings: the only thing ever asked of SHA-256. */
  ghost predicate Separates(a: Bytes, b: Bytes) {
    SHA256(a) == SHA256(b) ==> a == b
  }

  /** Change detection: one edit of either object changes the digest exactly when it is a visible edit. */
  lemma EditDetected(cm: Data, secret: Data, e: Edit)
    requires Separates(Hashed(Apply(cm, e), secret), Hashed(cm, secret))
    requires Separates(Hashed(cm, Apply(secret, e)), Hashed(cm, secret))
    ensures ConfigHash(Apply(cm, e), secret) != ConfigHash(cm, secret) <==> !Invisible(cm, e)
    ensures ConfigHash(cm, Apply(secret, e)) != ConfigHash(cm, secret) <==> !Invisible(secret, e)
  {
    EditChanges(cm, e);
    EditChanges(secret, e);
    if Hashed(Apply(cm, e), secret) == Hashed(cm, secret) {
      SameTail(Written(Apply(cm, e)), Written(cm), Written(secret));
    }
    if Hashed(cm, Apply(secret, e)) == Hashed(cm, secret) {
      SameHead(Written(cm), Written(Apply(secret, e)), Written(secret));
    }
  }

  lemma SameTail(a: Bytes, b: Bytes, tail: Bytes)
    requires a + tail == b + tail
    ensures a == b
  {
    assert |a| == |b|;
    assert a == (a + tail)[..|a|];
    assert b == (b + tail)[..|b|];
  }

  lemma SameHead(head: Bytes, a: Bytes, b: Bytes)
    requires head + a == head + b
    ensures a == b
  {
    assert a == (head + a)[|head|..];
    assert b == (head + b)[|head|..];
  }

  /** Any number of value changes is seen as long as they keep the lengths: same keys, same lengths, same
      bytes means the same data. */
  lemma SameShapeDetected(m: Data, m': Data)
    requires m.Keys == m'.Keys && forall k | k in m :: |m[k]| == |m'[k]|
    ensures Written(m) == Written(m') <==> m == m'
  {
    var ks := SortedKeys(m);
    AnySortedEnumeration(ks, m);
    AnySortedEnumeration(ks, m');
    if Written(m) == Written(m') {
      SameShapeStream(ks, m, m');
      forall k | k in m ensures m[k] == m'[k] {
        assert k in Elements(ks);
      }
      assert m == m';
    }
  }

  lemma {:induction false} SameShapeStream(ks: seq<Bytes>, m: Data, m': Data)
    requires forall k | k in ks :: k in m && k in m' && |m[k]| == |m'[k]|
    requires Stream(ks, m) == Stream(ks, m')
    ensures forall k | k in ks :: m[k] == m'[k]
  {
    if ks != [] {
      var k := ks[0];
      var x, y := m[k] + Stream(ks[1..], m), m'[k] + Stream(ks[1..], m');
      assert Stream(ks, m) == k + x && Stream(ks, m') == k + y;
      SameHead(k, x, y);
      assert m[k] == x[..|m[k]|] && m'[k] == y[..|m'[k]|];
      SameHead(m[k], Stream(ks[1..], m), Stream(ks[1..], m'));
      SameShapeStream(ks[1..], m, m');
      assert ks == [k] + ks[1..];
    }
  }

  /** Without delimiters two different data sets can write the same bytes: {a: "1b2", b: "3"} and
      {a: "1", b: "2b3"}. Their keys agree, so only the lengths can tell them apart. */
  lemma NotInjective() returns (m: Data, m': Data)
    ensures m != m' && m.Keys == m'.Keys
    ensures forall secret :: ConfigHash(m, secret) == ConfigHash(m', secret)
  {
    var a, b, one, two, three: Byte := 97, 98, 49, 50, 51;
    m := map[[a] := [one, b, two], [b] := [three]];
    m' := map[[a] := [one], [b] := [two, b, three]];
    var ks := [[a], [b]];
    assert m[[a]] != m'[[a]];
    assert Elements(ks) == {[a], [b]} == m.Keys == m'.Keys;
    AnySortedEnumeration(ks, m);
    AnySortedEnumeration(ks, m');
    assert Stream(ks[1..], m) == [b, three] && Stream(ks[1..], m') == [b, two, b, three] by {
      assert ks[1..] == [[b]] && ks[1..][1..] == [];
    }
    assert Stream(ks, m) == [a, one, b, two, b, three] == Stream(ks, m');
  }
}
