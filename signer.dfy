/** Request parameters of the UCloud API and their signature (src/adapters/ucloud.ts,
    `formatParamValue`, `generateSignature`, `buildRequestParams`).

    A parameter object is a list of entries with distinct keys in insertion order, as a JavaScript
    object keeps them. `Put` is property assignment and `Spread` is object spread. */
module Signer {
  import opened Wrappers
  import opened Seqs
  import opened Text
  import opened Types

  const MaxSafeInteger: int := 9007199254740991

  /** The integers a JavaScript number holds exactly. */
  type SafeInteger = i: int | -MaxSafeInteger <= i <= MaxSafeInteger

  /** A parameter value: a boolean, an integral number, or a string. */
  datatype ParamValue = PBool(b: bool) | PInt(i: SafeInteger) | PStr(s: string)

  /** The text a parameter value contributes to the signed string. */
  function FormatParamValue(v: ParamValue): (s: string)
    ensures v.PBool? ==> (s == "true" <==> v.b) && (s == "false" <==> !v.b)
    ensures v.PBool? ==> s == "true" || s == "false"
    ensures v.PInt? ==> IsIntNumeral(s) && NumeralValue(s) == v.i
    ensures v.PStr? ==> s == v.s
  {
    match v
    case PBool(b) => if b then "true" else "false"
    case PInt(i) => IntToDecimal(i)
    case PStr(s) => s
  }

  datatype Entry = Entry(key: string, value: ParamValue)

  /** A parameter object. */
  type Record = seq<Entry>

  /** `Object.keys(r)`. */
  function Keys(r: Record): (ks: seq<string>)
    ensures |ks| == |r|
    ensures forall i :: 0 <= i < |r| ==> ks[i] == r[i].key
  {
    if r == [] then [] else [r[0].key] + Keys(r[1..])
  }

  predicate DistinctKeys(r: Record) {
    NoDuplicates(Keys(r))
  }

  /** `r[k]`, absent when r has no property k. */
  function Lookup(r: Record, k: string): Option<ParamValue> {
    if r == [] then None
    else if r[0].key == k then Some(r[0].value)
    else Lookup(r[1..], k)
  }

  lemma {:induction false} LookupSome(r: Record, k: string)
    ensures Lookup(r, k).Some? <==> k in Keys(r)
  {
    if r != [] {
      LookupSome(r[1..], k);
      assert Keys(r) == [r[0].key] + Keys(r[1..]);
    }
  }

  /** In an object with distinct keys, looking up the key of an entry gives that entry's value. */
  lemma {:induction false} LookupEntry(r: Record, i: nat)
    requires DistinctKeys(r) && i < |r|
    ensures Lookup(r, r[i].key) == Some(r[i].value)
  {
    if i > 0 {
      assert Keys(r[1..]) == Keys(r)[1..];
      assert r[0].key != r[i].key;
      LookupEntry(r[1..], i - 1);
    }
  }

  /** `r[k] = v`: an existing property keeps its place and takes the new value, a new one is
      appended. */
  function Put(r: Record, k: string, v: ParamValue): (r': Record)
    ensures k !in Keys(r) ==> r' == r + [Entry(k, v)]
  {
    if r == [] then [Entry(k, v)]
    else if r[0].key == k then [Entry(k, v)] + r[1..]
    else
      assert Keys(r) == [r[0].key] + Keys(r[1..]);
      [r[0]] + Put(r[1..], k, v)
  }

  /** After `r[k] = v`, k holds v and every other property is unchanged. */
  lemma {:induction false} PutLookup(r: Record, k: string, v: ParamValue, k': string)
    ensures Lookup(Put(r, k, v), k') == if k' == k then Some(v) else Lookup(r, k')
  {
    if r != [] && r[0].key != k {
      PutLookup(r[1..], k, v, k');
    }
  }

  /** After `r[k] = v` the keys are those of r plus k. */
  lemma {:induction false} PutKeys(r: Record, k: string, v: ParamValue)
    ensures forall k' :: k' in Keys(Put(r, k, v)) <==> k' in Keys(r) || k' == k
  {
    if r != [] && r[0].key != k {
      PutKeys(r[1..], k, v);
    }
  }

  /** `r[k] = v` keeps the keys distinct. */
  lemma {:induction false} PutDistinct(r: Record, k: string, v: ParamValue)
    ensures DistinctKeys(r) ==> DistinctKeys(Put(r, k, v))
  {
    if r == [] || !DistinctKeys(r) {
    } else if r[0].key == k {
      NoDuplicatesCons(k, Keys(r[1..]));
    } else {
      NoDuplicatesCons(r[0].key, Keys(r[1..]));
      PutKeys(r[1..], k, v);
      PutDistinct(r[1..], k, v);
      NoDuplicatesCons(r[0].key, Keys(Put(r[1..], k, v)));
    }
  }

  /** `{...a, ...b}`: the properties of b assigned, in order, onto a copy of a. */
  function Spread(a: Record, b: Record): (r: Record)
    ensures forall k :: k in Keys(r) <==> k in Keys(a) || k in Keys(b)
    ensures DistinctKeys(a) ==> DistinctKeys(r)
    decreases |b|
  {
    if b == [] then a
    else
      PutKeys(a, b[0].key, b[0].value);
      PutDistinct(a, b[0].key, b[0].value);
      Spread(Put(a, b[0].key, b[0].value), b[1..])
  }

  /** A property of the spread comes from b when b has it, and from a otherwise. */
  lemma {:induction false} SpreadLookup(a: Record, b: Record, k: string)
    requires DistinctKeys(b)
    ensures Lookup(Spread(a, b), k) == if Lookup(b, k).Some? then Lookup(b, k) else Lookup(a, k)
    decreases |b|
  {
    if b != [] {
      PutLookup(a, b[0].key, b[0].value, k);
      assert Keys(b[1..]) == Keys(b)[1..];
      SpreadLookup(Put(a, b[0].key, b[0].value), b[1..], k);
      if b[0].key == k {
        LookupSome(b[1..], k);
      }
    }
  }

  /** The object without property k. */
  function Without(r: Record, k: string): Record {
    Filter((e: Entry) => e.key != k, r)
  }

  /** What one property contributes to the signature; a missing one reads as `undefined`. */
  function FormatMember(params: Record, k: string): string {
    match Lookup(params, k)
    case Some(v) => FormatParamValue(v)
    case None => "undefined"
  }

  /** `keys.map(key => key + formatParamValue(params[key])).join("")`. */
  function Canonical(params: Record, keys: seq<string>): string {
    if keys == [] then "" else keys[0] + FormatMember(params, keys[0]) + Canonical(params, keys[1..])
  }

  /** The string that is hashed: every property as name followed by value, names in ascending order,
      no delimiter, then the private key. */
  function StringToSign(params: Record, privateKey: string): string {
    Canonical(params, SortStrings(Keys(params))) + privateKey
  }

  /** `generateSignature`: the SHA-1 digest of the string to sign, in lower-case hex. */
  function GenerateSignature(params: Record, privateKey: string, sha1Hex: string -> string): (sig: string)
    ensures |sig| == |sha1Hex(StringToSign(params, privateKey))|
    ensures forall i :: 0 <= i < |sig| ==> !IsAsciiUpper(sig[i])
    ensures forall i :: 0 <= i < |sig| && !IsAsciiUpper(sha1Hex(StringToSign(params, privateKey))[i]) ==>
              sig[i] == sha1Hex(StringToSign(params, privateKey))[i]
  {
    ToLowerAscii(sha1Hex(StringToSign(params, privateKey)))
  }

  /** The concatenation of `key + value` over the entries, in their own order. */
  function Pairs(r: Record): string {
    if r == [] then "" else r[0].key + FormatParamValue(r[0].value) + Pairs(r[1..])
  }

  lemma {:induction false} CanonicalSameLookups(a: Record, b: Record, keys: seq<string>)
    requires forall k :: Lookup(a, k) == Lookup(b, k)
    ensures Canonical(a, keys) == Canonical(b, keys)
  {
    if keys != [] {
      CanonicalSameLookups(a, b, keys[1..]);
    }
  }

  /** The signed string depends only on which properties the object has and their values, not on
      the order in which they were inserted. */
  lemma SignatureIgnoresInsertionOrder(a: Record, b: Record, privateKey: string, sha1Hex: string -> string)
    requires DistinctKeys(a) && DistinctKeys(b)
    requires forall k :: Lookup(a, k) == Lookup(b, k)
    ensures StringToSign(a, privateKey) == StringToSign(b, privateKey)
    ensures GenerateSignature(a, privateKey, sha1Hex) == GenerateSignature(b, privateKey, sha1Hex)
  {
    forall k ensures k in Keys(a) <==> k in Keys(b) {
      LookupSome(a, k);
      LookupSome(b, k);
    }
    SameMembersPermutation(Keys(a), Keys(b));
    SortedUnique(SortStrings(Keys(a)), SortStrings(Keys(b)));
    CanonicalSameLookups(a, b, SortStrings(Keys(a)));
  }

  lemma {:induction false} CanonicalOfEntries(params: Record, q: Record)
    requires forall i :: 0 <= i < |q| ==> Lookup(params, q[i].key) == Some(q[i].value)
    ensures Canonical(params, Keys(q)) == Pairs(q)
  {
    if q != [] {
      assert Keys(q)[1..] == Keys(q[1..]);
      CanonicalOfEntries(params, q[1..]);
    }
  }

  /** When the properties were inserted in ascending name order, the signed string is simply every
      `name + value` in insertion order followed by the private key. */
  lemma SortedRecordStringToSign(params: Record, privateKey: string)
    requires DistinctKeys(params) && Sorted(Keys(params))
    ensures StringToSign(params, privateKey) == Pairs(params) + privateKey
  {
    SortedUnique(SortStrings(Keys(params)), Keys(params));
    forall i | 0 <= i < |params| ensures Lookup(params, params[i].key) == Some(params[i].value) {
      LookupEntry(params, i);
    }
    CanonicalOfEntries(params, params);
  }

  /** `{Action: action, PublicKey: accessKeyId, ...additionalParams}`: the object that is signed. */
  function SignedParams(account: Account, action: string, extra: Record): (r: Record)
    ensures DistinctKeys(r)
    ensures forall k :: k in Keys(r) <==> k == "Action" || k == "PublicKey" || k in Keys(extra)
  {
    var base := [Entry("Action", PStr(action)), Entry("PublicKey", PStr(account.accessKeyId))];
    assert Keys(base) == ["Action", "PublicKey"];
    Spread(base, extra)
  }

  /** Every property of the signed object: an additional parameter overrides Action and PublicKey. */
  lemma SignedParamsLookup(account: Account, action: string, extra: Record, k: string)
    requires DistinctKeys(extra)
    ensures Lookup(SignedParams(account, action, extra), k)
         == if Lookup(extra, k).Some? then Lookup(extra, k)
            else if k == "Action" then Some(PStr(action))
            else if k == "PublicKey" then Some(PStr(account.accessKeyId))
            else None
  {
    var base := [Entry("Action", PStr(action)), Entry("PublicKey", PStr(account.accessKeyId))];
    var tail := [Entry("PublicKey", PStr(account.accessKeyId))];
    assert base[1..] == tail && tail[1..] == [];
    assert Lookup(tail, k) == if k == "PublicKey" then Some(PStr(account.accessKeyId)) else None;
    assert Lookup(base, k) == if k == "Action" then Some(PStr(action)) else Lookup(tail, k);
    SpreadLookup(base, extra, k);
  }

  /** `buildRequestParams`: the signed object with `Signature` assigned afterwards. The signature
      covers every other property; unless the caller passed a `Signature` of its own, the request
      minus `Signature` is exactly the object that was signed. */
  function BuildRequestParams(account: Account, action: string, extra: Record, sha1Hex: string -> string): (r: Record)
    ensures DistinctKeys(r)
    ensures Lookup(r, "Signature")
         == Some(PStr(GenerateSignature(SignedParams(account, action, extra), account.accessKeySecret, sha1Hex)))
    ensures forall k :: k != "Signature" ==> Lookup(r, k) == Lookup(SignedParams(account, action, extra), k)
    ensures "Signature" !in Keys(extra) ==>
              r == SignedParams(account, action, extra)
                   + [Entry("Signature", PStr(GenerateSignature(SignedParams(account, action, extra), account.accessKeySecret, sha1Hex)))]
  {
    var params := SignedParams(account, action, extra);
    var signature := GenerateSignature(params, account.accessKeySecret, sha1Hex);
    PutSignature(params, signature);
    Put(params, "Signature", PStr(signature))
  }

  lemma PutSignature(params: Record, signature: string)
    ensures DistinctKeys(params) ==> DistinctKeys(Put(params, "Signature", PStr(signature)))
    ensures Lookup(Put(params, "Signature", PStr(signature)), "Signature") == Some(PStr(signature))
    ensures forall k :: k != "Signature" ==> Lookup(Put(params, "Signature", PStr(signature)), k) == Lookup(params, k)
  {
    PutDistinct(params, "Signature", PStr(signature));
    forall k ensures Lookup(Put(params, "Signature", PStr(signature)), k)
                     == if k == "Signature" then Some(PStr(signature)) else Lookup(params, k) {
      PutLookup(params, "Signature", PStr(signature), k);
    }
  }

  /** Removing `Signature` from a request built without a caller-supplied one gives back the signed
      object. */
  lemma BuildRequestParamsWithout(account: Account, action: string, extra: Record, sha1Hex: string -> string)
    requires "Signature" !in Keys(extra)
    ensures Without(BuildRequestParams(account, action, extra, sha1Hex), "Signature") == SignedParams(account, action, extra)
  {
    var params := SignedParams(account, action, extra);
    var sig := Entry("Signature", PStr(GenerateSignature(params, account.accessKeySecret, sha1Hex)));
    var p := (e: Entry) => e.key != "Signature";
    FilterAppend(p, params, sig);
    FilterKeepsAll(p, params);
  }

  lemma {:induction false} FilterKeepsAll(p: Entry -> bool, s: seq<Entry>)
    requires forall i :: 0 <= i < |s| ==> p(s[i])
    ensures Filter(p, s) == s
  {
    if s != [] {
      FilterKeepsAll(p, s[..|s| - 1]);
      assert s[..|s| - 1] + [s[|s| - 1]] == s;
    }
  }
}
