/**
 * Request construction of the LBank futures client: the parameter dict of
 * every endpoint, the canonical signing string, the injected authentication
 * parameters, and which requests are signed.
 *
 * A Python dict is an insertion-ordered sequence of (key, value) pairs with
 * distinct keys; `Put` is `d[k] = v`. MD5 and HMAC-SHA256 are parameters
 * (`Digests`); the clock and the random source are inputs.
 */
module LBankClient {
  import opened Wrappers
  import opened Text

  /** The USDT-margined perpetual product group sent with every private call. */
  const ProductGroup: string := "SwapU"

  type Params = seq<(string, string)>

  function Keys(p: Params): (ks: seq<string>)
    ensures |ks| == |p|
    ensures forall i :: 0 <= i < |p| ==> ks[i] == p[i].0
    decreases |p|
  {
    if |p| == 0 then [] else [p[0].0] + Keys(p[1..])
  }

  predicate DistinctKeys(p: Params) {
    forall i, j :: 0 <= i < j < |p| ==> p[i].0 != p[j].0
  }

  /** `d.get(k)`. */
  function Lookup(p: Params, k: string): (r: Option<string>)
    ensures r.Some? <==> k in Keys(p)
    decreases |p|
  {
    if |p| == 0 then None
    else if p[0].0 == k then Some(p[0].1)
    else Lookup(p[1..], k)
  }

  /** `d[k] = v`: a present key keeps its place and takes the new value; a new key goes last. */
  function Put(p: Params, k: string, v: string): Params
    decreases |p|
  {
    if |p| == 0 then [(k, v)]
    else if p[0].0 == k then [(k, v)] + p[1..]
    else [p[0]] + Put(p[1..], k, v)
  }

  /**
   * After `d[k] = v`, `k` holds `v`, every other key keeps its value, and the
   * keys are those of `d` with `k` appended when it was not among them.
   */
  lemma {:induction false} PutSpec(p: Params, k: string, v: string)
    ensures Lookup(Put(p, k, v), k) == Some(v)
    ensures forall k' :: k' != k ==> Lookup(Put(p, k, v), k') == Lookup(p, k')
    ensures Keys(Put(p, k, v)) == if k in Keys(p) then Keys(p) else Keys(p) + [k]
    decreases |p|
  {
    if |p| == 0 {
      LookupCons((k, v), [], k);
      KeysCons((k, v), []);
    } else if p[0].0 == k {
      PutHere(p, k, v);
    } else {
      var t := Put(p[1..], k, v);
      assert Put(p, k, v) == [p[0]] + t;
      assert p == [p[0]] + p[1..];
      PutSpec(p[1..], k, v);
      PutFurtherLookup(p[0], p[1..], t, k, v);
      PutFurtherKeys(p[0], p[1..], t, k);
    }
  }

  lemma KeysCons(x: (string, string), t: Params)
    ensures Keys([x] + t) == [x.0] + Keys(t)
  {
    assert ([x] + t)[1..] == t;
  }

  lemma LookupCons(x: (string, string), t: Params, k: string)
    ensures Lookup([x] + t, k) == if x.0 == k then Some(x.1) else Lookup(t, k)
  {
    assert ([x] + t)[1..] == t;
  }

  /** `Put` on a dict whose first key is the one assigned. */
  lemma PutHere(p: Params, k: string, v: string)
    requires |p| > 0 && p[0].0 == k
    ensures var r := [(k, v)] + p[1..];
      Lookup(r, k) == Some(v)
      && (forall k' :: k' != k ==> Lookup(r, k') == Lookup(p, k'))
      && k in Keys(p) && Keys(r) == Keys(p)
  {
    var r := [(k, v)] + p[1..];
    assert r[1..] == p[1..];
    KeysCons(p[0], p[1..]);
    KeysCons((k, v), p[1..]);
    assert p == [p[0]] + p[1..];
  }

  /** The values after `Put` on a dict whose first key is another one, from those after `Put` on the rest. */
  lemma PutFurtherLookup(x: (string, string), t: Params, r: Params, k: string, v: string)
    requires x.0 != k
    requires Lookup(r, k) == Some(v)
    requires forall k' :: k' != k ==> Lookup(r, k') == Lookup(t, k')
    ensures Lookup([x] + r, k) == Some(v)
    ensures forall k' :: k' != k ==> Lookup([x] + r, k') == Lookup([x] + t, k')
  {
    LookupCons(x, r, k);
    forall k' | k' != k ensures Lookup([x] + r, k') == Lookup([x] + t, k') {
      LookupCons(x, r, k');
      LookupCons(x, t, k');
    }
  }

  /** The keys after `Put` on a dict whose first key is another one, from those after `Put` on the rest. */
  lemma PutFurtherKeys(x: (string, string), t: Params, r: Params, k: string)
    requires x.0 != k
    requires Keys(r) == if k in Keys(t) then Keys(t) else Keys(t) + [k]
    ensures Keys([x] + r) == if k in Keys([x] + t) then Keys([x] + t) else Keys([x] + t) + [k]
  {
    KeysCons(x, t);
    KeysCons(x, r);
    var kt := Keys(t);
    assert k in [x.0] + kt <==> k in kt;
    if k !in kt {
      assert [x.0] + (kt + [k]) == [x.0] + kt + [k];
    }
  }

  /** `d.pop(k)` when `k` is a key; the dict itself otherwise. */
  function Drop(p: Params, k: string): (r: Params)
    ensures forall k' :: k' != k ==> Lookup(r, k') == Lookup(p, k')
    decreases |p|
  {
    if |p| == 0 then []
    else if p[0].0 == k then p[1..]
    else
      var r := [p[0]] + Drop(p[1..], k);
      assert r[1..] == Drop(p[1..], k);
      r
  }

  /** The value of a key is the one at its first occurrence. */
  lemma {:induction false} LookupAt(p: Params, i: nat, k: string)
    requires i < |p| && p[i].0 == k
    requires forall j :: 0 <= j < i ==> p[j].0 != k
    ensures Lookup(p, k) == Some(p[i].1)
    decreases i
  {
    if i > 0 {
      LookupAt(p[1..], i - 1, k);
    }
  }

  /** A key that no entry carries is not in the dict. */
  lemma NotAKey(p: Params, k: string)
    requires forall i :: 0 <= i < |p| ==> p[i].0 != k
    ensures k !in Keys(p) && Lookup(p, k) == None
  {
    assert forall i :: 0 <= i < |Keys(p)| ==> Keys(p)[i] != k;
  }

  /** Changing the value of one entry changes no other key's value and no key. */
  lemma {:induction false} SetValueElsewhere(p: Params, i: nat, v: string, k: string)
    requires i < |p| && k != p[i].0
    ensures Lookup(p[i := (p[i].0, v)], k) == Lookup(p, k)
    ensures Keys(p[i := (p[i].0, v)]) == Keys(p)
    decreases i
  {
    var q := p[i := (p[i].0, v)];
    assert p == [p[0]] + p[1..];
    LookupCons(p[0], p[1..], k);
    if i > 0 {
      var r := p[1..][i - 1 := (p[i].0, v)];
      assert q == [p[0]] + r;
      SetValueElsewhere(p[1..], i - 1, v, k);
      LookupCons(p[0], r, k);
    } else {
      assert q == [(p[0].0, v)] + p[1..];
      LookupCons((p[0].0, v), p[1..], k);
    }
    forall j | 0 <= j < |p| ensures Keys(q)[j] == Keys(p)[j] { }
  }

  /** Adding a key that was absent and then removing it gives the dict back. */
  lemma {:induction false} PutThenDrop(p: Params, k: string, v: string)
    requires k !in Keys(p)
    ensures Drop(Put(p, k, v), k) == p
    decreases |p|
  {
    if |p| > 0 {
      assert p[0].0 != k;
      var t := Put(p[1..], k, v);
      assert Put(p, k, v) == [p[0]] + t;
      assert ([p[0]] + t)[1..] == t;
      PutThenDrop(p[1..], k, v);
      assert p == [p[0]] + p[1..];
    }
  }

  // ---------------------------------------------------------------------------
  // Python's ordering of strings: lexicographic by code point.

  /** `a < b` on Python strings. */
  predicate Below(a: string, b: string)
    decreases |a|
  {
    |b| > 0 && (|a| == 0 || a[0] < b[0] || (a[0] == b[0] && Below(a[1..], b[1..])))
  }

  lemma {:induction false} BelowIrreflexive(a: string)
    ensures !Below(a, a)
    decreases |a|
  {
    if |a| > 0 {
      BelowIrreflexive(a[1..]);
    }
  }

  lemma {:induction false} BelowTransitive(a: string, b: string, c: string)
    requires Below(a, b) && Below(b, c)
    ensures Below(a, c)
    decreases |a|
  {
    if |a| > 0 && a[0] == b[0] && b[0] == c[0] {
      BelowTransitive(a[1..], b[1..], c[1..]);
    }
  }

  lemma {:induction false} BelowTotal(a: string, b: string)
    requires a != b
    ensures Below(a, b) || Below(b, a)
    decreases |a|
  {
    if |a| > 0 && |b| > 0 && a[0] == b[0] {
      assert a == [a[0]] + a[1..] && b == [b[0]] + b[1..];
      BelowTotal(a[1..], b[1..]);
    }
  }

  lemma BelowAsymmetric(a: string, b: string)
    requires Below(a, b)
    ensures !Below(b, a)
  {
    if Below(b, a) {
      BelowTransitive(a, b, a);
      BelowIrreflexive(a);
    }
  }

  /** Strictly increasing in Python's string order (hence without repeats). */
  predicate Ascending(s: seq<string>) {
    forall i, j :: 0 <= i < j < |s| ==> Below(s[i], s[j])
  }

  predicate Distinct(s: seq<string>) {
    forall i, j :: 0 <= i < j < |s| ==> s[i] != s[j]
  }

  /** One step of insertion sort: `x` goes before the first element it is below. */
  function Insert(x: string, s: seq<string>): seq<string>
    decreases |s|
  {
    if |s| == 0 then [x]
    else if Below(s[0], x) then [s[0]] + Insert(x, s[1..])
    else [x] + s
  }

  /** Inserting adds `x` to the elements and keeps a strictly increasing sequence so. */
  lemma {:induction false} InsertSpec(x: string, s: seq<string>)
    ensures multiset(Insert(x, s)) == multiset(s) + multiset{x}
    ensures Ascending(s) && x !in s ==> Ascending(Insert(x, s))
    decreases |s|
  {
    if |s| > 0 {
      assert s == [s[0]] + s[1..];
      if Below(s[0], x) {
        var t := Insert(x, s[1..]);
        InsertSpec(x, s[1..]);
        if Ascending(s) && x !in s {
          forall j | 0 <= j < |t| ensures Below(s[0], t[j]) {
            assert t[j] in multiset(t);
            assert t[j] == x || t[j] in s[1..];
          }
        }
      } else if Ascending(s) && x !in s {
        BelowTotal(x, s[0]);
        forall j | 0 <= j < |s| ensures Below(x, s[j]) {
          if j > 0 {
            BelowTransitive(x, s[0], s[j]);
          }
        }
      }
    }
  }

  lemma DistinctRest(s: seq<string>)
    requires |s| > 0 && Distinct(s)
    ensures Distinct(s[1..]) && s[0] !in s[1..]
  {
    var rest := s[1..];
    forall i, j | 0 <= i < j < |rest| ensures rest[i] != rest[j] {
      assert rest[i] == s[i + 1] && rest[j] == s[j + 1];
    }
  }

  /** `sorted(s)`, as an insertion sort. */
  function Sort(s: seq<string>): seq<string>
    decreases |s|
  {
    if |s| == 0 then [] else Insert(s[0], Sort(s[1..]))
  }

  /** Sorting permutes the elements, and orders distinct ones strictly. */
  lemma {:induction false} SortSpec(s: seq<string>)
    ensures multiset(Sort(s)) == multiset(s)
    ensures Distinct(s) ==> Ascending(Sort(s))
    decreases |s|
  {
    if |s| > 0 {
      var rest := s[1..];
      var t := Sort(rest);
      SortSpec(rest);
      InsertSpec(s[0], t);
      assert multiset(s) == multiset(rest) + multiset{s[0]} by {
        assert s == [s[0]] + rest;
      }
      if Distinct(s) {
        DistinctRest(s);
        assert s[0] !in multiset(t);
      }
    }
  }

  /** Two strictly increasing sequences with the same elements are the same sequence. */
  lemma {:induction false} AscendingUnique(a: seq<string>, b: seq<string>)
    requires Ascending(a) && Ascending(b)
    requires forall x :: x in a <==> x in b
    ensures a == b
    decreases |a|
  {
    assert |a| > 0 ==> a[0] in a;
    assert |b| > 0 ==> b[0] in b;
    if |a| > 0 && |b| > 0 {
      assert a[0] in a && b[0] in b;
      if a[0] != b[0] {
        var i :| 0 <= i < |b| && b[i] == a[0];
        var j :| 0 <= j < |a| && a[j] == b[0];
        assert i > 0 && j > 0;
        BelowAsymmetric(b[0], a[0]);
        assert false;
      }
      assert a == [a[0]] + a[1..] && b == [b[0]] + b[1..];
      forall x ensures x in a[1..] <==> x in b[1..] {
        if x in a[1..] {
          var k :| 1 <= k < |a| && a[k] == x;
          assert Below(a[0], x);
          BelowIrreflexive(x);
          assert x in b && x != b[0];
        }
        if x in b[1..] {
          var k :| 1 <= k < |b| && b[k] == x;
          assert Below(b[0], x);
          BelowIrreflexive(x);
          assert x in a && x != a[0];
        }
      }
      AscendingUnique(a[1..], b[1..]);
    }
  }

  // ---------------------------------------------------------------------------
  // The signature.

  /** Hex digest primitives: MD5 of a string and HMAC-SHA256 of (key, message). */
  datatype Digests = Digests(md5Hex: string -> string, hmacSha256Hex: (string, string) -> string)

  function Pair(k: string, v: string): string {
    k + "=" + v
  }

  /** `"&".join(f"{k}={p[k]}" for k in keys)`. */
  function JoinPairs(keys: seq<string>, p: Params): string
    decreases |keys|
  {
    if |keys| == 0 then ""
    else Pair(keys[0], Lookup(p, keys[0]).GetOr("")) + (if |keys| == 1 then "" else "&" + JoinPairs(keys[1..], p))
  }

  /** The canonical string that is signed: every pair, keys in code-point order. */
  function SigningString(p: Params): string {
    JoinPairs(Sort(Keys(p)), p)
  }

  /** The signature: lowercase hex HMAC-SHA256 under the secret of the upper-cased hex MD5 of the string. */
  function Sign(d: Digests, secret: string, p: Params): string {
    d.hmacSha256Hex(secret, Upper(d.md5Hex(SigningString(p))))
  }

  /**
   * The signing string depends only on the dict's contents, never on the order
   * its keys were inserted in.
   */
  lemma SigningIgnoresInsertionOrder(p: Params, q: Params)
    requires DistinctKeys(p) && DistinctKeys(q)
    requires forall k :: Lookup(p, k) == Lookup(q, k)
    ensures SigningString(p) == SigningString(q)
  {
    SortedKeysAgree(p, q);
    JoinPairsAgree(Sort(Keys(p)), p, q);
  }

  lemma KeysDistinct(p: Params)
    requires DistinctKeys(p)
    ensures Distinct(Keys(p))
  {
    forall i, j | 0 <= i < j < |Keys(p)| ensures Keys(p)[i] != Keys(p)[j] { }
  }

  /** Dicts with the same contents have the same sorted keys. */
  lemma SortedKeysAgree(p: Params, q: Params)
    requires DistinctKeys(p) && DistinctKeys(q)
    requires forall k :: Lookup(p, k) == Lookup(q, k)
    ensures Sort(Keys(p)) == Sort(Keys(q))
  {
    var a, b := Sort(Keys(p)), Sort(Keys(q));
    SortSpec(Keys(p));
    SortSpec(Keys(q));
    KeysDistinct(p);
    KeysDistinct(q);
    forall x ensures x in a <==> x in b {
      assert x in a <==> x in multiset(Keys(p));
      assert x in b <==> x in multiset(Keys(q));
      assert Lookup(p, x).Some? == Lookup(q, x).Some?;
    }
    AscendingUnique(a, b);
  }

  lemma {:induction false} JoinPairsAgree(keys: seq<string>, p: Params, q: Params)
    requires forall k :: Lookup(p, k) == Lookup(q, k)
    ensures JoinPairs(keys, p) == JoinPairs(keys, q)
    decreases |keys|
  {
    if |keys| > 1 {
      JoinPairsAgree(keys[1..], p, q);
    }
  }

  /** Two pairs with the same key and different values, followed by the same text, differ. */
  lemma PairsDiffer(k: string, x: string, y: string, rest: string)
    requires x != y
    ensures Pair(k, x) + rest != Pair(k, y) + rest
  {
    if |x| == |y| {
      var i :| 0 <= i < |x| && x[i] != y[i];
      assert (Pair(k, x) + rest)[|k| + 1 + i] == x[i];
      assert (Pair(k, y) + rest)[|k| + 1 + i] == y[i];
    } else {
      assert |Pair(k, x) + rest| != |Pair(k, y) + rest|;
    }
  }

  /** Texts with a common prefix are equal only if what follows it is. */
  lemma PrefixCancels(a: string, x: string, y: string)
    requires a + x == a + y
    ensures x == y
  {
    assert x == (a + x)[|a|..];
    assert y == (a + y)[|a|..];
  }

  lemma {:induction false} JoinPairsDiffer(keys: seq<string>, p: Params, q: Params, k: string)
    requires Distinct(keys) && k in keys
    requires forall k' :: k' != k ==> Lookup(p, k') == Lookup(q, k')
    requires Lookup(p, k).Some? && Lookup(q, k).Some? && Lookup(p, k) != Lookup(q, k)
    ensures JoinPairs(keys, p) != JoinPairs(keys, q)
    decreases |keys|
  {
    var vp, vq := Lookup(p, keys[0]).GetOr(""), Lookup(q, keys[0]).GetOr("");
    var tail := keys[1..];
    assert Distinct(tail) by {
      forall i, j | 0 <= i < j < |tail| ensures tail[i] != tail[j] {
        assert tail[i] == keys[i + 1] && tail[j] == keys[j + 1];
      }
    }
    var rp := if |keys| == 1 then "" else "&" + JoinPairs(tail, p);
    var rq := if |keys| == 1 then "" else "&" + JoinPairs(tail, q);
    assert JoinPairs(keys, p) == Pair(keys[0], vp) + rp;
    assert JoinPairs(keys, q) == Pair(keys[0], vq) + rq;
    if keys[0] == k {
      forall x | x in tail ensures x != k {
        var i :| 0 <= i < |tail| && tail[i] == x;
        assert keys[i + 1] == x;
      }
      JoinPairsSame(tail, p, q, k);
      PairsDiffer(k, vp, vq, rp);
    } else {
      assert k in tail;
      JoinPairsDiffer(tail, p, q, k);
      assert vp == vq;
      if Pair(keys[0], vp) + rp == Pair(keys[0], vq) + rq {
        PrefixCancels(Pair(keys[0], vp), rp, rq);
        PrefixCancels("&", JoinPairs(tail, p), JoinPairs(tail, q));
      }
    }
  }

  lemma {:induction false} JoinPairsSame(keys: seq<string>, p: Params, q: Params, k: string)
    requires forall x :: x in keys ==> x != k
    requires forall k' :: k' != k ==> Lookup(p, k') == Lookup(q, k')
    ensures JoinPairs(keys, p) == JoinPairs(keys, q)
    decreases |keys|
  {
    if |keys| > 0 {
      assert keys[0] in keys;
      assert forall x :: x in keys[1..] ==> x in keys;
      JoinPairsSame(keys[1..], p, q, k);
    }
  }

  /** Giving one existing key a different value always changes the signing string. */
  lemma SigningSeesEveryValue(p: Params, k: string, v: string)
    requires DistinctKeys(p) && Lookup(p, k).Some? && Lookup(p, k) != Some(v)
    ensures SigningString(Put(p, k, v)) != SigningString(p)
  {
    var q := Put(p, k, v);
    PutSpec(p, k, v);
    assert Keys(q) == Keys(p);
    var keys := Sort(Keys(p));
    SortSpec(Keys(p));
    forall i, j | 0 <= i < j < |Keys(p)| ensures Keys(p)[i] != Keys(p)[j] { }
    forall i, j | 0 <= i < j < |keys| ensures keys[i] != keys[j] {
      BelowIrreflexive(keys[i]);
    }
    assert k in multiset(keys);
    JoinPairsDiffer(keys, q, p, k);
  }

  // ---------------------------------------------------------------------------
  // The random nonce.

  const EchostrLength: nat := 35

  /** The i-th character of `string.ascii_letters + string.digits`. */
  function AlphabetChar(i: nat): (c: char)
    requires i < 62
    ensures IsAlnum(c)
  {
    if i < 26 then ('a' as int + i) as char
    else if i < 52 then ('A' as int + (i - 26)) as char
    else ('0' as int + (i - 52)) as char
  }

  predicate IsAlnum(c: char) {
    IsLowerAscii(c) || IsUpperAscii(c) || IsDigit(c)
  }

  /**
   * `random.choices(ascii_letters + digits, k=35)` joined: `pick(i)` is the
   * index chosen by the i-th draw.
   */
  function Echostr(pick: nat -> nat): (r: string)
    ensures |r| == EchostrLength
    ensures forall i :: 0 <= i < |r| ==> IsAlnum(r[i])
  {
    var r := seq(EchostrLength, i requires 0 <= i < EchostrLength => AlphabetChar(pick(i) % 62));
    assert forall i :: 0 <= i < |r| ==> r[i] == AlphabetChar(pick(i) % 62);
    r
  }

  /** The position of an ASCII letter or digit in the alphabet. */
  function AlphabetIndex(c: char): (i: nat)
    requires IsAlnum(c)
    ensures i < 62 && AlphabetChar(i) == c
  {
    if IsLowerAscii(c) then c as int - 'a' as int
    else if IsUpperAscii(c) then 26 + (c as int - 'A' as int)
    else 52 + (c as int - '0' as int)
  }

  /** Every 35-character string of ASCII letters and digits is a possible nonce. */
  lemma EchostrCoversAlphabet(s: string)
    requires |s| == EchostrLength
    requires forall i :: 0 <= i < |s| ==> IsAlnum(s[i])
    ensures exists pick: nat -> nat :: Echostr(pick) == s
  {
    var pick := (i: nat) => if i < |s| then AlphabetIndex(s[i]) else 0;
    var r := Echostr(pick);
    forall i | 0 <= i < |s| ensures r[i] == s[i] {
      assert pick(i) == AlphabetIndex(s[i]) < 62;
      assert r[i] == AlphabetChar(pick(i) % 62);
    }
    assert r == s;
  }

  // ---------------------------------------------------------------------------
  // Authentication.

  /** The four authentication parameters, added in this order before signing. */
  function WithAuth(p: Params, apiKey: string, sigMethod: string, ts: string, echostr: string): Params {
    Put(Put(Put(Put(p, "api_key", apiKey), "signature_method", sigMethod), "timestamp", ts), "echostr", echostr)
  }

  /** The dict that is sent: the authentication parameters, then `sign` over everything before it. */
  function SignedParams(p: Params, d: Digests, apiKey: string, secret: string, sigMethod: string,
                        ts: string, echostr: string): Params {
    var signed := WithAuth(p, apiKey, sigMethod, ts, echostr);
    Put(signed, "sign", Sign(d, secret, signed))
  }

  /** The headers of a signed request. */
  function AuthHeaderList(sigMethod: string, ts: string, echostr: string): Params {
    [("Content-Type", "application/json"), ("timestamp", ts), ("signature_method", sigMethod), ("echostr", echostr)]
  }

  predicate NoAuthKeys(p: Params) {
    "api_key" !in Keys(p) && "signature_method" !in Keys(p) && "timestamp" !in Keys(p)
      && "echostr" !in Keys(p) && "sign" !in Keys(p)
  }

  lemma NotInAppend<T>(s: seq<T>, x: T, y: T)
    requires x !in s && x != y
    ensures x !in s + [y]
  {
  }

  lemma AppendFour<T>(s: seq<T>, a: T, b: T, c: T, d: T)
    ensures s + [a] + [b] + [c] + [d] == s + [a, b, c, d]
  {
  }

  /**
   * Exactly the four authentication keys are added, after the caller's keys
   * and in order, with the given values; no other entry changes, and `sign`
   * is not among the signed keys.
   */
  lemma AuthAddsExactlyFour(p: Params, apiKey: string, sigMethod: string, ts: string, echostr: string)
    requires NoAuthKeys(p)
    ensures Keys(WithAuth(p, apiKey, sigMethod, ts, echostr))
         == Keys(p) + ["api_key", "signature_method", "timestamp", "echostr"]
    ensures Lookup(WithAuth(p, apiKey, sigMethod, ts, echostr), "api_key") == Some(apiKey)
    ensures Lookup(WithAuth(p, apiKey, sigMethod, ts, echostr), "signature_method") == Some(sigMethod)
    ensures Lookup(WithAuth(p, apiKey, sigMethod, ts, echostr), "timestamp") == Some(ts)
    ensures Lookup(WithAuth(p, apiKey, sigMethod, ts, echostr), "echostr") == Some(echostr)
    ensures "sign" !in Keys(WithAuth(p, apiKey, sigMethod, ts, echostr))
    ensures forall k :: k !in ["api_key", "signature_method", "timestamp", "echostr"] ==>
              Lookup(WithAuth(p, apiKey, sigMethod, ts, echostr), k) == Lookup(p, k)
  {
    WithAuthKeys(p, apiKey, sigMethod, ts, echostr);
    WithAuthValues(p, apiKey, sigMethod, ts, echostr);
  }

  lemma WithAuthKeys(p: Params, apiKey: string, sigMethod: string, ts: string, echostr: string)
    requires NoAuthKeys(p)
    ensures Keys(WithAuth(p, apiKey, sigMethod, ts, echostr))
         == Keys(p) + ["api_key", "signature_method", "timestamp", "echostr"]
    ensures "sign" !in Keys(WithAuth(p, apiKey, sigMethod, ts, echostr))
  {
    var p1 := Put(p, "api_key", apiKey);
    var p2 := Put(p1, "signature_method", sigMethod);
    var p3 := Put(p2, "timestamp", ts);
    var p4 := Put(p3, "echostr", echostr);
    PutSpec(p, "api_key", apiKey);
    PutSpec(p1, "signature_method", sigMethod);
    PutSpec(p2, "timestamp", ts);
    PutSpec(p3, "echostr", echostr);
    assert Keys(p1) == Keys(p) + ["api_key"];
    NotInAppend(Keys(p), "signature_method", "api_key");
    NotInAppend(Keys(p), "timestamp", "api_key");
    NotInAppend(Keys(p), "echostr", "api_key");
    NotInAppend(Keys(p), "sign", "api_key");
    assert Keys(p2) == Keys(p1) + ["signature_method"];
    NotInAppend(Keys(p1), "timestamp", "signature_method");
    NotInAppend(Keys(p1), "echostr", "signature_method");
    NotInAppend(Keys(p1), "sign", "signature_method");
    assert Keys(p3) == Keys(p2) + ["timestamp"];
    NotInAppend(Keys(p2), "echostr", "timestamp");
    NotInAppend(Keys(p2), "sign", "timestamp");
    assert Keys(p4) == Keys(p3) + ["echostr"];
    NotInAppend(Keys(p3), "sign", "echostr");
    AppendFour(Keys(p), "api_key", "signature_method", "timestamp", "echostr");
  }

  lemma WithAuthValues(p: Params, apiKey: string, sigMethod: string, ts: string, echostr: string)
    ensures Lookup(WithAuth(p, apiKey, sigMethod, ts, echostr), "api_key") == Some(apiKey)
    ensures Lookup(WithAuth(p, apiKey, sigMethod, ts, echostr), "signature_method") == Some(sigMethod)
    ensures Lookup(WithAuth(p, apiKey, sigMethod, ts, echostr), "timestamp") == Some(ts)
    ensures Lookup(WithAuth(p, apiKey, sigMethod, ts, echostr), "echostr") == Some(echostr)
    ensures forall k :: k !in ["api_key", "signature_method", "timestamp", "echostr"] ==>
              Lookup(WithAuth(p, apiKey, sigMethod, ts, echostr), k) == Lookup(p, k)
  {
    var p1 := Put(p, "api_key", apiKey);
    var p2 := Put(p1, "signature_method", sigMethod);
    var p3 := Put(p2, "timestamp", ts);
    var p4 := Put(p3, "echostr", echostr);
    PutSpec(p, "api_key", apiKey);
    PutSpec(p1, "signature_method", sigMethod);
    PutSpec(p2, "timestamp", ts);
    PutSpec(p3, "echostr", echostr);
    forall k | k !in ["api_key", "signature_method", "timestamp", "echostr"]
      ensures Lookup(p4, k) == Lookup(p, k)
    {
      assert k != "api_key" && k != "signature_method" && k != "timestamp" && k != "echostr";
      assert Lookup(p4, k) == Lookup(p3, k);
      assert Lookup(p3, k) == Lookup(p2, k);
      assert Lookup(p2, k) == Lookup(p1, k);
    }
    assert Lookup(p4, "api_key") == Lookup(p1, "api_key");
    assert Lookup(p4, "signature_method") == Lookup(p2, "signature_method");
    assert Lookup(p4, "timestamp") == Lookup(p3, "timestamp");
  }

  /**
   * The receiving side's check succeeds: the `sign` entry is the signature
   * of the sent dict with `sign` removed.
   */
  lemma SignatureVerifies(p: Params, d: Digests, apiKey: string, secret: string, sigMethod: string,
                          ts: string, echostr: string)
    requires NoAuthKeys(p)
    ensures var sent := SignedParams(p, d, apiKey, secret, sigMethod, ts, echostr);
      Lookup(sent, "sign") == Some(Sign(d, secret, Drop(sent, "sign")))
  {
    var signed := WithAuth(p, apiKey, sigMethod, ts, echostr);
    AuthAddsExactlyFour(p, apiKey, sigMethod, ts, echostr);
    PutSpec(signed, "sign", Sign(d, secret, signed));
    PutThenDrop(signed, "sign", Sign(d, secret, signed));
  }

  /** The headers repeat the `timestamp`, `signature_method` and `echostr` values that are signed. */
  lemma HeadersMatchParams(p: Params, d: Digests, apiKey: string, secret: string, sigMethod: string,
                           ts: string, echostr: string)
    requires NoAuthKeys(p)
    ensures var sent := SignedParams(p, d, apiKey, secret, sigMethod, ts, echostr);
      var h := AuthHeaderList(sigMethod, ts, echostr);
      Lookup(h, "timestamp") == Lookup(sent, "timestamp") == Some(ts)
      && Lookup(h, "signature_method") == Lookup(sent, "signature_method") == Some(sigMethod)
      && Lookup(h, "echostr") == Lookup(sent, "echostr") == Some(echostr)
      && Lookup(h, "Content-Type") == Some("application/json")
  {
    AuthAddsExactlyFour(p, apiKey, sigMethod, ts, echostr);
    var signed := WithAuth(p, apiKey, sigMethod, ts, echostr);
    var sent := Put(signed, "sign", Sign(d, secret, signed));
    PutSpec(signed, "sign", Sign(d, secret, signed));
    assert Lookup(sent, "timestamp") == Lookup(signed, "timestamp");
    assert Lookup(sent, "signature_method") == Lookup(signed, "signature_method");
    assert Lookup(sent, "echostr") == Lookup(signed, "echostr");
    HeaderValues(sigMethod, ts, echostr);
  }

  lemma HeaderValues(sigMethod: string, ts: string, echostr: string)
    ensures var h := AuthHeaderList(sigMethod, ts, echostr);
      Lookup(h, "Content-Type") == Some("application/json") && Lookup(h, "timestamp") == Some(ts)
      && Lookup(h, "signature_method") == Some(sigMethod) && Lookup(h, "echostr") == Some(echostr)
  {
    var h := AuthHeaderList(sigMethod, ts, echostr);
    LookupAt(h, 0, "Content-Type");
    LookupAt(h, 1, "timestamp");
    LookupAt(h, 2, "signature_method");
    LookupAt(h, 3, "echostr");
  }

  /** A dict updated in place (the argument `_auth_headers` mutates). */
  class ParamDict {
    var items: Params

    constructor (init: Params)
      ensures items == init
    {
      items := init;
    }

    /** `d[k] = v`. */
    method Set(k: string, v: string)
      modifies this
      ensures items == Put(old(items), k, v)
    {
      items := Put(items, k, v);
    }
  }

  // ---------------------------------------------------------------------------
  // Endpoints.

  /** One call of the client's public interface, with its arguments. */
  datatype Endpoint =
    | GetTime
    | GetInstruments
    | GetMarketData
    | GetOrderbook(symbol: string, depth: int)
    | GetAccount(asset: string)
    | GetPositions(symbolFilter: Option<string>)
    | SetLeverage(symbol: string, leverage: int)
    | SetMarginType(symbol: string, marginType: string)
    | PlaceOrder(symbol: string, side: string, volume: string, price: Option<string>, orderType: string)
    | CancelOrder(symbol: string, orderId: string)
    | GetOrder(symbol: string, orderId: string)
    | GetOpenOrders(symbolFilter: Option<string>)
    | SetStopLoss(symbol: string, side: string, stopPrice: string)
    | SetTakeProfit(symbol: string, side: string, stopPrice: string)

  /** The four public endpoints are read with `_get` and no authentication. */
  predicate IsPublic(e: Endpoint) {
    e.GetTime? || e.GetInstruments? || e.GetMarketData? || e.GetOrderbook?
  }

  function PathOf(e: Endpoint): string {
    match e
    case GetTime => "/cfd/openApi/v1/pub/getTime"
    case GetInstruments => "/cfd/openApi/v1/pub/instrument"
    case GetMarketData => "/cfd/openApi/v1/pub/marketData"
    case GetOrderbook(_, _) => "/cfd/openApi/v1/pub/marketOrder"
    case GetAccount(_) => "/cfd/openApi/v1/prv/account"
    case GetPositions(_) => "/cfd/openApi/v1/prv/position"
    case SetLeverage(_, _) => "/cfd/openApi/v1/prv/setLeverage"
    case SetMarginType(_, _) => "/cfd/openApi/v1/prv/setMarginType"
    case PlaceOrder(_, _, _, _, _) => "/cfd/openApi/v1/prv/order"
    case CancelOrder(_, _) => "/cfd/openApi/v1/prv/cancelOrder"
    case GetOrder(_, _) => "/cfd/openApi/v1/prv/orderDetail"
    case GetOpenOrders(_) => "/cfd/openApi/v1/prv/openOrders"
    case SetStopLoss(_, _, _) => "/cfd/openApi/v1/prv/setStopOrder"
    case SetTakeProfit(_, _, _) => "/cfd/openApi/v1/prv/setStopOrder"
  }

  /** Python truthiness of an optional string argument. */
  predicate Given(s: Option<string>) {
    s.Some? && s.value != ""
  }

  /** `"1"` for isolated margin, `"2"` for anything else. */
  function MarginCode(marginType: string): string {
    if marginType == "isolated" then "1" else "2"
  }

  /** The stop-order dict shared by stop-loss and take-profit. */
  function StopOrderParams(symbol: string, side: string, stopPrice: string, kind: string): Params {
    [("symbol", symbol), ("side", side), ("stopPrice", stopPrice), ("triggerType", "mark_price"),
     ("orderType", kind), ("productGroup", ProductGroup)]
  }

  /** The five entries every order sends, in the order they are inserted. */
  function OrderBase(symbol: string, side: string, volume: string, orderType: string): Params {
    [("symbol", symbol), ("side", side), ("volume", volume), ("type", orderType), ("productGroup", ProductGroup)]
  }

  /** The dict each endpoint passes to `_get` or `_post`, before any authentication. */
  function Payload(e: Endpoint): Params {
    match e
    case GetTime => []
    case GetInstruments => [("productGroup", ProductGroup)]
    case GetMarketData => [("productGroup", ProductGroup)]
    case GetOrderbook(symbol, depth) => [("symbol", symbol), ("depth", IntToDecimal(depth))]
    case GetAccount(asset) => [("asset", asset), ("productGroup", ProductGroup)]
    case GetPositions(symbol) =>
      if Given(symbol) then Put([("productGroup", ProductGroup)], "symbol", symbol.value)
      else [("productGroup", ProductGroup)]
    case SetLeverage(symbol, leverage) =>
      [("symbol", symbol), ("leverage", IntToDecimal(leverage)), ("productGroup", ProductGroup)]
    case SetMarginType(symbol, marginType) =>
      [("symbol", symbol), ("positionType", MarginCode(marginType)), ("productGroup", ProductGroup)]
    case PlaceOrder(symbol, side, volume, price, orderType) =>
      var data := OrderBase(symbol, side, volume, orderType);
      if Given(price) && orderType == "limit" then Put(data, "price", price.value) else data
    case CancelOrder(symbol, orderId) =>
      [("symbol", symbol), ("orderId", orderId), ("productGroup", ProductGroup)]
    case GetOrder(symbol, orderId) =>
      [("symbol", symbol), ("orderId", orderId), ("productGroup", ProductGroup)]
    case GetOpenOrders(symbol) =>
      if Given(symbol) then Put([("productGroup", ProductGroup)], "symbol", symbol.value)
      else [("productGroup", ProductGroup)]
    case SetStopLoss(symbol, side, stopPrice) => StopOrderParams(symbol, side, stopPrice, "stop_loss")
    case SetTakeProfit(symbol, side, stopPrice) => StopOrderParams(symbol, side, stopPrice, "take_profit")
  }

  datatype Verb = Get | Post

  /** What goes on the wire: the query (GET) or JSON body (POST) dict, and the headers. */
  datatype Request = Request(verb: Verb, path: string, params: Params, headers: Params)

  /** `str(int(time.time() * 1000))` for a clock reading in milliseconds. */
  function Timestamp(nowMillis: int): string {
    IntToDecimal(nowMillis)
  }

  /** The request endpoint `e` produces at clock reading `nowMillis` with nonce draws `pick`. */
  function RequestFor(e: Endpoint, d: Digests, apiKey: string, secret: string, sigMethod: string,
                      nowMillis: int, pick: nat -> nat): Request {
    if IsPublic(e) then Request(Get, PathOf(e), Payload(e), [])
    else
      var ts, echostr := Timestamp(nowMillis), Echostr(pick);
      Request(Post, PathOf(e), SignedParams(Payload(e), d, apiKey, secret, sigMethod, ts, echostr),
              AuthHeaderList(sigMethod, ts, echostr))
  }

  /** The client's credentials and the digest primitives it signs with. */
  class FuturesClient {
    const apiKey: string
    const secretKey: string
    const signatureMethod: string
    const digests: Digests

    constructor (apiKey: string, secretKey: string, signatureMethod: string, digests: Digests)
      ensures this.apiKey == apiKey && this.secretKey == secretKey
      ensures this.signatureMethod == signatureMethod && this.digests == digests
    {
      this.apiKey := apiKey;
      this.secretKey := secretKey;
      this.signatureMethod := signatureMethod;
      this.digests := digests;
    }

    /**
     * Adds the authentication parameters and the signature to `params` in
     * place and returns the headers.
     */
    method AuthHeaders(params: ParamDict, nowMillis: int, pick: nat -> nat) returns (headers: Params)
      modifies params
      ensures params.items == SignedParams(old(params.items), digests, apiKey, secretKey, signatureMethod,
                                           Timestamp(nowMillis), Echostr(pick))
      ensures headers == AuthHeaderList(signatureMethod, Timestamp(nowMillis), Echostr(pick))
    {
      var ts := Timestamp(nowMillis);
      var echostr := Echostr(pick);
      params.Set("api_key", apiKey);
      params.Set("signature_method", signatureMethod);
      params.Set("timestamp", ts);
      params.Set("echostr", echostr);
      var sign := Sign(digests, secretKey, params.items);
      headers := AuthHeaderList(signatureMethod, ts, echostr);
      params.Set("sign", sign);
    }

    /** `_get`: signed only when `auth` is set. */
    method GetRequest(path: string, params: Params, auth: bool, nowMillis: int, pick: nat -> nat)
      returns (req: Request)
      ensures req.verb == Get && req.path == path
      ensures !auth ==> req.params == params && req.headers == []
      ensures auth ==> req.params == SignedParams(params, digests, apiKey, secretKey, signatureMethod,
                                                  Timestamp(nowMillis), Echostr(pick))
      ensures auth ==> req.headers == AuthHeaderList(signatureMethod, Timestamp(nowMillis), Echostr(pick))
    {
      var d := new ParamDict(params);
      var headers := [];
      if auth {
        headers := AuthHeaders(d, nowMillis, pick);
      }
      req := Request(Get, path, d.items, headers);
    }

    /** `_post`: always signed. */
    method PostRequest(path: string, data: Params, nowMillis: int, pick: nat -> nat) returns (req: Request)
      ensures req.verb == Post && req.path == path
      ensures req.params == SignedParams(data, digests, apiKey, secretKey, signatureMethod,
                                         Timestamp(nowMillis), Echostr(pick))
      ensures req.headers == AuthHeaderList(signatureMethod, Timestamp(nowMillis), Echostr(pick))
    {
      var d := new ParamDict(data);
      var headers := AuthHeaders(d, nowMillis, pick);
      req := Request(Post, path, d.items, headers);
    }

    /**
     * One endpoint call: builds its dict (inserting the optional keys one at a
     * time) and hands it to `_get` or `_post`.
     */
    method Issue(e: Endpoint, nowMillis: int, pick: nat -> nat) returns (req: Request)
      ensures req == RequestFor(e, digests, apiKey, secretKey, signatureMethod, nowMillis, pick)
    {
      if e.GetPositions? || e.GetOpenOrders? || e.PlaceOrder? {
        req := IssueBuilt(e, nowMillis, pick);
      } else {
        req := PostOrGet(e, nowMillis, pick);
      }
    }

    /** The three endpoints whose dict gains optional keys one at a time. */
    method IssueBuilt(e: Endpoint, nowMillis: int, pick: nat -> nat) returns (req: Request)
      requires e.GetPositions? || e.GetOpenOrders? || e.PlaceOrder?
      ensures req == RequestFor(e, digests, apiKey, secretKey, signatureMethod, nowMillis, pick)
    {
      var d;
      if e.PlaceOrder? {
        d := new ParamDict(OrderBase(e.symbol, e.side, e.volume, e.orderType));
        if Given(e.price) && e.orderType == "limit" {
          d.Set("price", e.price.value);
        }
      } else {
        d := new ParamDict([("productGroup", ProductGroup)]);
        if Given(e.symbolFilter) {
          d.Set("symbol", e.symbolFilter.value);
        }
      }
      req := PostRequest(PathOf(e), d.items, nowMillis, pick);
    }

    /** The endpoints whose dict is fixed: public ones through `_get`, the rest through `_post`. */
    method PostOrGet(e: Endpoint, nowMillis: int, pick: nat -> nat) returns (req: Request)
      requires !e.GetPositions? && !e.GetOpenOrders? && !e.PlaceOrder?
      ensures req == RequestFor(e, digests, apiKey, secretKey, signatureMethod, nowMillis, pick)
    {
      if IsPublic(e) {
        req := GetRequest(PathOf(e), Payload(e), false, nowMillis, pick);
      } else {
        req := PostRequest(PathOf(e), Payload(e), nowMillis, pick);
      }
    }
  }

  // ---------------------------------------------------------------------------
  // What each endpoint sends.

  /** Public endpoints go out unsigned; every other endpoint is a signed POST carrying `sign`. */
  lemma SignedIffPrivate(e: Endpoint, d: Digests, apiKey: string, secret: string, sigMethod: string,
                         nowMillis: int, pick: nat -> nat)
    ensures var req := RequestFor(e, d, apiKey, secret, sigMethod, nowMillis, pick);
      (req.verb == Post <==> !IsPublic(e))
      && ("sign" in Keys(req.params) <==> !IsPublic(e))
      && (req.headers == [] <==> IsPublic(e))
      && req.path == PathOf(e)
  {
    PayloadHasNoAuthKeys(e);
    if !IsPublic(e) {
      var signed := WithAuth(Payload(e), apiKey, sigMethod, Timestamp(nowMillis), Echostr(pick));
      PutSpec(signed, "sign", Sign(d, secret, signed));
    }
  }

  const AuthKeyNames: seq<string> := ["api_key", "signature_method", "timestamp", "echostr", "sign"]

  /** The names the endpoints' own dicts use. */
  predicate PlainName(k: string) {
    k in ["productGroup", "symbol", "depth", "asset", "leverage", "positionType", "side", "volume", "type",
          "orderId", "stopPrice", "triggerType", "orderType", "price"]
  }

  lemma PlainNameIsNoAuthName(k: string)
    requires PlainName(k)
    ensures k !in AuthKeyNames
  {
  }

  lemma {:induction false} NoAuthKeysOf(p: Params)
    requires forall i :: 0 <= i < |p| ==> PlainName(p[i].0)
    ensures NoAuthKeys(p)
    decreases |p|
  {
    if |p| > 0 {
      NoAuthKeysOf(p[1..]);
      PlainNameIsNoAuthName(p[0].0);
      KeysCons(p[0], p[1..]);
      assert p == [p[0]] + p[1..];
    }
  }

  lemma NoAuthKeysPut(p: Params, k: string, v: string)
    requires NoAuthKeys(p) && PlainName(k)
    ensures NoAuthKeys(Put(p, k, v))
  {
    PutSpec(p, k, v);
    PlainNameIsNoAuthName(k);
    if k !in Keys(p) {
      NotInAppend(Keys(p), "api_key", k);
      NotInAppend(Keys(p), "signature_method", k);
      NotInAppend(Keys(p), "timestamp", k);
      NotInAppend(Keys(p), "echostr", k);
      NotInAppend(Keys(p), "sign", k);
    }
  }

  lemma NoAuthKeysOfTwo(x: (string, string), y: (string, string))
    requires PlainName(x.0) && PlainName(y.0)
    ensures NoAuthKeys([x, y])
  {
    NoAuthKeysOf([x, y]);
  }

  lemma NoAuthKeysOfThree(x: (string, string), y: (string, string), z: (string, string))
    requires PlainName(x.0) && PlainName(y.0) && PlainName(z.0)
    ensures NoAuthKeys([x, y, z])
  {
    NoAuthKeysOf([x, y, z]);
  }

  lemma OrderBaseHasNoAuthKeys(symbol: string, side: string, volume: string, orderType: string)
    ensures NoAuthKeys(OrderBase(symbol, side, volume, orderType))
  {
    NoAuthKeysOf(OrderBase(symbol, side, volume, orderType));
  }

  lemma StopOrderHasNoAuthKeys(symbol: string, side: string, stopPrice: string, kind: string)
    ensures NoAuthKeys(StopOrderParams(symbol, side, stopPrice, kind))
  {
    NoAuthKeysOf(StopOrderParams(symbol, side, stopPrice, kind));
  }

  /** A filter dict: the product group, and the symbol when one is given. */
  lemma FilterHasNoAuthKeys(symbol: Option<string>)
    ensures NoAuthKeys(if Given(symbol) then Put([("productGroup", ProductGroup)], "symbol", symbol.value)
                       else [("productGroup", ProductGroup)])
  {
    var group := [("productGroup", ProductGroup)];
    NoAuthKeysOf(group);
    if Given(symbol) {
      NoAuthKeysPut(group, "symbol", symbol.value);
    }
  }

  lemma PublicPayloadHasNoAuthKeys(e: Endpoint)
    requires IsPublic(e)
    ensures NoAuthKeys(Payload(e))
  {
    if e.GetOrderbook? {
      NoAuthKeysOfTwo(("symbol", e.symbol), ("depth", IntToDecimal(e.depth)));
    } else if !e.GetTime? {
      NoAuthKeysOf([("productGroup", ProductGroup)]);
    }
  }

  lemma AccountPayloadHasNoAuthKeys(e: Endpoint)
    requires e.GetAccount? || e.GetPositions? || e.GetOpenOrders? || e.SetLeverage? || e.SetMarginType?
    ensures NoAuthKeys(Payload(e))
  {
    if e.GetAccount? {
      NoAuthKeysOfTwo(("asset", e.asset), ("productGroup", ProductGroup));
    } else if e.SetLeverage? {
      NoAuthKeysOfThree(("symbol", e.symbol), ("leverage", IntToDecimal(e.leverage)), ("productGroup", ProductGroup));
    } else if e.SetMarginType? {
      NoAuthKeysOfThree(("symbol", e.symbol), ("positionType", MarginCode(e.marginType)), ("productGroup", ProductGroup));
    } else {
      FilterHasNoAuthKeys(e.symbolFilter);
    }
  }

  lemma OrderPayloadHasNoAuthKeys(e: Endpoint)
    requires e.PlaceOrder? || e.CancelOrder? || e.GetOrder? || e.SetStopLoss? || e.SetTakeProfit?
    ensures NoAuthKeys(Payload(e))
  {
    if e.PlaceOrder? {
      OrderBaseHasNoAuthKeys(e.symbol, e.side, e.volume, e.orderType);
      if Given(e.price) && e.orderType == "limit" {
        NoAuthKeysPut(OrderBase(e.symbol, e.side, e.volume, e.orderType), "price", e.price.value);
      }
    } else if e.SetStopLoss? {
      StopOrderHasNoAuthKeys(e.symbol, e.side, e.stopPrice, "stop_loss");
    } else if e.SetTakeProfit? {
      StopOrderHasNoAuthKeys(e.symbol, e.side, e.stopPrice, "take_profit");
    } else {
      NoAuthKeysOfThree(("symbol", e.symbol), ("orderId", e.orderId), ("productGroup", ProductGroup));
    }
  }

  /** No endpoint's own dict uses a key that authentication adds. */
  lemma PayloadHasNoAuthKeys(e: Endpoint)
    ensures NoAuthKeys(Payload(e))
  {
    if IsPublic(e) {
      PublicPayloadHasNoAuthKeys(e);
    } else if e.PlaceOrder? || e.CancelOrder? || e.GetOrder? || e.SetStopLoss? || e.SetTakeProfit? {
      OrderPayloadHasNoAuthKeys(e);
    } else {
      AccountPayloadHasNoAuthKeys(e);
    }
  }

  /** The keys of an order dict are distinct names, none of them `price`. */
  lemma OrderKeysDistinct()
    ensures "symbol" != "side" && "symbol" != "volume" && "symbol" != "type" && "symbol" != "productGroup"
    ensures "side" != "volume" && "side" != "type" && "side" != "productGroup"
    ensures "volume" != "type" && "volume" != "productGroup" && "type" != "productGroup"
    ensures "price" != "symbol" && "price" != "side" && "price" != "volume" && "price" != "type"
    ensures "price" != "productGroup"
  {
  }

  /** Looking a key up in a five-entry dict. */
  lemma LookupFive(a: (string, string), b: (string, string), c: (string, string), d: (string, string),
                   e: (string, string), k: string)
    ensures Lookup([a, b, c, d, e], k)
         == if a.0 == k then Some(a.1) else if b.0 == k then Some(b.1) else if c.0 == k then Some(c.1)
            else if d.0 == k then Some(d.1) else if e.0 == k then Some(e.1) else None
  {
    assert [a, b, c, d, e] == [a] + ([b] + ([c] + ([d] + ([e] + []))));
    LookupCons(a, [b] + ([c] + ([d] + ([e] + []))), k);
    LookupCons(b, [c] + ([d] + ([e] + [])), k);
    LookupCons(c, [d] + ([e] + []), k);
    LookupCons(d, [e] + [], k);
    LookupCons(e, [], k);
  }

  lemma OrderBaseValues(symbol: string, side: string, volume: string, orderType: string)
    ensures var data := OrderBase(symbol, side, volume, orderType);
      Lookup(data, "symbol") == Some(symbol) && Lookup(data, "side") == Some(side)
      && Lookup(data, "volume") == Some(volume) && Lookup(data, "type") == Some(orderType)
      && Lookup(data, "productGroup") == Some("SwapU") && "price" !in Keys(data)
  {
    var a, b, c, d, e := ("symbol", symbol), ("side", side), ("volume", volume), ("type", orderType),
                          ("productGroup", ProductGroup);
    assert OrderBase(symbol, side, volume, orderType) == [a, b, c, d, e];
    OrderKeysDistinct();
    LookupFive(a, b, c, d, e, "symbol");
    LookupFive(a, b, c, d, e, "side");
    LookupFive(a, b, c, d, e, "volume");
    LookupFive(a, b, c, d, e, "type");
    LookupFive(a, b, c, d, e, "productGroup");
    LookupFive(a, b, c, d, e, "price");
  }

  /**
   * An order always sends symbol, side, volume, type and the product group,
   * and sends `price` exactly when a non-empty price is given for a limit order.
   */
  lemma OrderSendsPriceOnlyForLimit(symbol: string, side: string, volume: string, price: Option<string>,
                                    orderType: string)
    ensures var p := Payload(PlaceOrder(symbol, side, volume, price, orderType));
      Lookup(p, "symbol") == Some(symbol) && Lookup(p, "side") == Some(side)
      && Lookup(p, "volume") == Some(volume) && Lookup(p, "type") == Some(orderType)
      && Lookup(p, "productGroup") == Some("SwapU")
      && ("price" in Keys(p) <==> Given(price) && orderType == "limit")
      && ("price" in Keys(p) ==> Lookup(p, "price") == price)
      && |p| == (if Given(price) && orderType == "limit" then 6 else 5)
  {
    var data := OrderBase(symbol, side, volume, orderType);
    OrderBaseValues(symbol, side, volume, orderType);
    var p := Payload(PlaceOrder(symbol, side, volume, price, orderType));
    if Given(price) && orderType == "limit" {
      assert p == Put(data, "price", price.value);
      PutSpec(data, "price", price.value);
      assert |Keys(p)| == |Keys(data)| + 1;
    } else {
      assert p == data;
    }
  }

  /** The margin type is sent as `positionType` "1" exactly for isolated margin, else "2". */
  lemma MarginTypeCode(symbol: string, marginType: string)
    ensures var p := Payload(SetMarginType(symbol, marginType));
      (Lookup(p, "positionType") == Some("1") <==> marginType == "isolated")
      && (Lookup(p, "positionType") == Some("2") <==> marginType != "isolated")
      && Lookup(p, "symbol") == Some(symbol) && Lookup(p, "productGroup") == Some("SwapU")
  {
    var p := Payload(SetMarginType(symbol, marginType));
    LookupAt(p, 0, "symbol");
    LookupAt(p, 1, "positionType");
    LookupAt(p, 2, "productGroup");
  }

  /** The leverage is sent as its decimal string, which reads back as the same integer. */
  lemma LeverageSentAsDecimal(symbol: string, leverage: int)
    ensures var p := Payload(SetLeverage(symbol, leverage));
      Lookup(p, "leverage").Some? && ParseInt(Lookup(p, "leverage").value) == Some(leverage)
  {
    LookupAt(Payload(SetLeverage(symbol, leverage)), 1, "leverage");
    IntToDecimalRoundTrip(leverage);
  }

  /**
   * Stop-loss and take-profit go to the same path with the same dict except
   * `orderType`, and both trigger on the mark price.
   */
  lemma StopAndTakeProfitDifferOnlyInKind(symbol: string, side: string, stopPrice: string)
    ensures PathOf(SetStopLoss(symbol, side, stopPrice)) == PathOf(SetTakeProfit(symbol, side, stopPrice))
    ensures var sl, tp := Payload(SetStopLoss(symbol, side, stopPrice)), Payload(SetTakeProfit(symbol, side, stopPrice));
      Keys(sl) == Keys(tp)
      && (forall k :: k != "orderType" ==> Lookup(sl, k) == Lookup(tp, k))
      && Lookup(sl, "orderType") == Some("stop_loss") && Lookup(tp, "orderType") == Some("take_profit")
      && Lookup(sl, "triggerType") == Some("mark_price") && Lookup(tp, "triggerType") == Some("mark_price")
  {
    var a, b, c, d, f := ("symbol", symbol), ("side", side), ("stopPrice", stopPrice), ("triggerType", "mark_price"),
                          ("productGroup", ProductGroup);
    var e1, e2 := ("orderType", "stop_loss"), ("orderType", "take_profit");
    var sl, tp := Payload(SetStopLoss(symbol, side, stopPrice)), Payload(SetTakeProfit(symbol, side, stopPrice));
    assert sl == [a, b, c, d, e1, f] && tp == [a, b, c, d, e2, f];
    assert tp == sl[4 := (sl[4].0, "take_profit")];
    forall k | k != "orderType" ensures Lookup(sl, k) == Lookup(tp, k) {
      SetValueElsewhere(sl, 4, "take_profit", k);
    }
    SetValueElsewhere(sl, 4, "take_profit", "symbol");
    StopKeysDistinct();
    LookupSix(a, b, c, d, e1, f, "orderType");
    LookupSix(a, b, c, d, e2, f, "orderType");
    LookupSix(a, b, c, d, e1, f, "triggerType");
  }

  /** The keys before `orderType` in a stop order dict are other names, none of them `triggerType` but the fourth. */
  lemma StopKeysDistinct()
    ensures "symbol" != "orderType" && "side" != "orderType" && "stopPrice" != "orderType" && "triggerType" != "orderType"
    ensures "symbol" != "triggerType" && "side" != "triggerType" && "stopPrice" != "triggerType"
  {
  }

  /** Looking a key up in a six-entry dict. */
  lemma LookupSix(a: (string, string), b: (string, string), c: (string, string), d: (string, string),
                  e: (string, string), f: (string, string), k: string)
    ensures Lookup([a, b, c, d, e, f], k)
         == if a.0 == k then Some(a.1) else if b.0 == k then Some(b.1) else if c.0 == k then Some(c.1)
            else if d.0 == k then Some(d.1) else if e.0 == k then Some(e.1) else if f.0 == k then Some(f.1)
            else None
  {
    assert [a, b, c, d, e, f] == [a] + [b, c, d, e, f];
    LookupCons(a, [b, c, d, e, f], k);
    LookupFive(b, c, d, e, f, k);
  }

  /** The position and open-order queries send `symbol` only when one is given. */
  lemma SymbolFilterOnlyWhenGiven(symbol: Option<string>)
    ensures "symbol" in Keys(Payload(GetPositions(symbol))) <==> Given(symbol)
    ensures "symbol" in Keys(Payload(GetOpenOrders(symbol))) <==> Given(symbol)
    ensures Given(symbol) ==> Lookup(Payload(GetPositions(symbol)), "symbol") == symbol
    ensures Lookup(Payload(GetPositions(symbol)), "productGroup") == Some("SwapU")
  {
    var group := [("productGroup", ProductGroup)];
    NotAKey(group, "symbol");
    LookupAt(group, 0, "productGroup");
    if Given(symbol) {
      PutSpec(group, "symbol", symbol.value);
    }
  }
}
