/** The array-element disclosure of Selective Disclosure for JWTs
    (draft-ietf-oauth-selective-disclosure-jwt, "Disclosures for Array
    Elements"): a salt and a hidden JSON value, their wire array form
    `[salt, value]`, the placeholder `{"...": digest}` that stands in for the
    hidden value inside an array, and the builder that assembles one. */
module SdJwt {
  import opened Wrappers
  import opened Json

  /** The only member name of the placeholder that replaces a hidden array element. */
  const SdClaimName: string := "..."

  /** Message of the NullPointerException that `Build` raises when no element was set. */
  const ArrayElementMissing: string := "arrayElement must not be null"

  /** An SD-JWT salt, held as its string form. */
  datatype Salt = Salt(value: string)

  /** A disclosure for one array element. Both fields are fixed at construction. */
  datatype UndisclosedArrayElement = UndisclosedArrayElement(salt: Salt, arrayElement: Json)

  /** The digest primitive: the digest string of a disclosure's array form
      under the hash algorithm of the given name. */
  type HashFn = (seq<Json>, string) -> string

  /** Reads a disclosure back from its array form: exactly two elements, the
      first a string. The inverse of `ToArray`. */
  function ArrayElementDisclosureOf(a: seq<Json>): (r: Option<UndisclosedArrayElement>)
    ensures r.Some? <==> |a| == 2 && a[0].Str?
  {
    if |a| == 2 && a[0].Str? then Some(UndisclosedArrayElement(Salt(a[0].s), a[1])) else None
  }

  /** The wire array form of a disclosure: the salt string, then the element. */
  function ToArray(d: UndisclosedArrayElement): (r: seq<Json>)
    ensures |r| == 2
    ensures ArrayElementDisclosureOf(r) == Some(d)
  {
    [Str(d.salt.value), d.arrayElement]
  }

  /** Every array that reads back as a disclosure is that disclosure's array form. */
  lemma ArrayFormRoundTrip(a: seq<Json>)
    requires ArrayElementDisclosureOf(a).Some?
    ensures ToArray(ArrayElementDisclosureOf(a).value) == a
  {
  }

  /** Two disclosures with the same array form are the same disclosure. */
  lemma ToArrayInjective(d1: UndisclosedArrayElement, d2: UndisclosedArrayElement)
    requires ToArray(d1) == ToArray(d2)
    ensures d1 == d2
  {
  }

  /** The digest of a disclosure: the hash of its array form. */
  function Digest(d: UndisclosedArrayElement, hashAlg: string, hash: HashFn): (r: string)
  {
    hash(ToArray(d), hashAlg)
  }

  /** The digest a placeholder object carries, if `v` is one: an object whose
      only member is `"..."` holding a string. */
  function PlaceholderDigest(v: Json): (r: Option<string>)
    ensures r.Some? ==> v.Object? && |v.fields| == 1 && v.fields[0].0 == SdClaimName
    ensures r.Some? ==> v.fields[0].1 == Str(r.value)
  {
    if v.Object? && |v.fields| == 1 && v.fields[0].0 == SdClaimName && v.fields[0].1.Str?
    then Some(v.fields[0].1.s)
    else None
  }

  /** The value shown in place of the hidden element: a new object with the
      single member `"..."` set to the disclosure's digest. */
  function VisibleValue(d: UndisclosedArrayElement, hashAlg: string, hash: HashFn): (r: Json)
    ensures r.Object? && |r.fields| == 1 && DistinctNames(r.fields)
    ensures r.fields[0] == ("...", Str(Digest(d, hashAlg, hash)))
    ensures PlaceholderDigest(r) == Some(Digest(d, hashAlg, hash))
  {
    Object([(SdClaimName, Str(Digest(d, hashAlg, hash)))])
  }

  /** A placeholder is determined by the digest it carries: any value that
      reads as a placeholder for the digest of `d` is `d`'s visible value. */
  lemma PlaceholderIsVisibleValue(v: Json, d: UndisclosedArrayElement, hashAlg: string, hash: HashFn)
    requires PlaceholderDigest(v) == Some(Digest(d, hashAlg, hash))
    ensures v == VisibleValue(d, hashAlg, hash)
  {
  }

  /** Nothing inside the visible value other than the placeholder itself and
      the digest string: the hidden element can occur in it only by
      coinciding with one of those two. */
  lemma VisibleValueHidesElement(d: UndisclosedArrayElement, hashAlg: string, hash: HashFn, e: Json)
    requires Occurs(e, VisibleValue(d, hashAlg, hash))
    ensures e == VisibleValue(d, hashAlg, hash) || e == Str(Digest(d, hashAlg, hash))
  {
  }

  /** The visible value depends on the element only through the digest. */
  lemma VisibleValueDependsOnlyOnDigest(d1: UndisclosedArrayElement, d2: UndisclosedArrayElement, hashAlg: string, hash: HashFn)
    requires Digest(d1, hashAlg, hash) == Digest(d2, hashAlg, hash)
    ensures VisibleValue(d1, hashAlg, hash) == VisibleValue(d2, hashAlg, hash)
  {
  }

  // ---------------------------------------------------------------------------
  // The builder

  /** The fields of a builder; `None` is a field still null. */
  datatype BuilderState = BuilderState(salt: Option<Salt>, arrayElement: Option<Json>)

  /** What `Build` throws. */
  datatype BuildError = NullPointerException(message: string)

  /** One fluent setter call on a builder. */
  datatype Setter = SetSalt(salt: Option<Salt>) | SetArrayElement(element: Option<Json>)

  /** The builder's fields after one setter call: the field of that setter
      takes the value passed, the other field is untouched. */
  function Apply(st: BuilderState, c: Setter): (r: BuilderState)
    ensures c.SetSalt? ==> r.salt == c.salt && r.arrayElement == st.arrayElement
    ensures c.SetArrayElement? ==> r.arrayElement == c.element && r.salt == st.salt
  {
    match c
    case SetSalt(s) => st.(salt := s)
    case SetArrayElement(e) => st.(arrayElement := e)
  }

  /** The builder's fields after a chain of setter calls, left to right. */
  function Replay(st: BuilderState, calls: seq<Setter>): (r: BuilderState)
    decreases |calls|
  {
    if calls == [] then st else Replay(Apply(st, calls[0]), calls[1..])
  }

  /** The salt of the last `SetSalt` in `calls`, or `dflt` if there is none. */
  function LastSalt(calls: seq<Setter>, dflt: Option<Salt>): (r: Option<Salt>)
  {
    if calls == [] then dflt
    else match calls[|calls| - 1]
      case SetSalt(s) => s
      case SetArrayElement(_) => LastSalt(calls[..|calls| - 1], dflt)
  }

  /** The element of the last `SetArrayElement` in `calls`, or `dflt` if there is none. */
  function LastArrayElement(calls: seq<Setter>, dflt: Option<Json>): (r: Option<Json>)
  {
    if calls == [] then dflt
    else match calls[|calls| - 1]
      case SetArrayElement(e) => e
      case SetSalt(_) => LastArrayElement(calls[..|calls| - 1], dflt)
  }

  /** Scanning for the last salt from the back agrees with first applying the
      first call to the default and scanning the rest. */
  lemma {:induction false} LastSaltFromFirst(calls: seq<Setter>, dflt: Option<Salt>)
    requires calls != []
    ensures LastSalt(calls, dflt) == LastSalt(calls[1..], Apply(BuilderState(dflt, None), calls[0]).salt)
    decreases |calls|
  {
    var n := |calls|;
    if n > 1 && calls[n - 1].SetArrayElement? {
      LastSaltFromFirst(calls[..n - 1], dflt);
      assert calls[..n - 1][1..] == calls[1..][..n - 2];
    }
  }

  /** The same for the last element set. */
  lemma {:induction false} LastArrayElementFromFirst(calls: seq<Setter>, dflt: Option<Json>)
    requires calls != []
    ensures LastArrayElement(calls, dflt) == LastArrayElement(calls[1..], Apply(BuilderState(None, dflt), calls[0]).arrayElement)
    decreases |calls|
  {
    var n := |calls|;
    if n > 1 && calls[n - 1].SetSalt? {
      LastArrayElementFromFirst(calls[..n - 1], dflt);
      assert calls[..n - 1][1..] == calls[1..][..n - 2];
    }
  }

  /** Each setter sets only its own field: after any chain of calls, each
      field holds what the last call to its own setter passed, and is
      otherwise untouched. */
  lemma {:induction false} ReplayKeepsLastWrite(st: BuilderState, calls: seq<Setter>)
    ensures Replay(st, calls) == BuilderState(LastSalt(calls, st.salt), LastArrayElement(calls, st.arrayElement))
    decreases |calls|
  {
    if calls != [] {
      ReplayKeepsLastWrite(Apply(st, calls[0]), calls[1..]);
      LastSaltFromFirst(calls, st.salt);
      LastArrayElementFromFirst(calls, st.arrayElement);
    }
  }

  /** What `Build` returns and the builder's fields afterwards. A missing
      element throws before anything is assigned; otherwise a missing salt is
      replaced by `randomSalt`, and that salt is written back to the builder. */
  function BuildStep(st: BuilderState, randomSalt: Salt): (r: (Result<UndisclosedArrayElement, BuildError>, BuilderState))
    ensures r.0.Failure? <==> st.arrayElement.None?
    ensures r.0.Failure? ==> r.0.error == NullPointerException("arrayElement must not be null") && r.1 == st
    ensures r.0.Success? ==> st.arrayElement == Some(r.0.value.arrayElement)
    ensures r.0.Success? && st.salt.Some? ==> r.0.value.salt == st.salt.value
    ensures r.0.Success? && st.salt.None? ==> r.0.value.salt == randomSalt
    ensures r.0.Success? ==> r.1 == BuilderState(Some(r.0.value.salt), st.arrayElement)
  {
    match st.arrayElement
    case None => (Failure(NullPointerException(ArrayElementMissing)), st)
    case Some(e) =>
      var s := if st.salt.Some? then st.salt.value else randomSalt;
      (Success(UndisclosedArrayElement(s, e)), BuilderState(Some(s), st.arrayElement))
  }

  /** Building twice from the same builder gives the same outcome: a first
      success fixed the salt, so the second draws no new one, and a first
      failure changed nothing, so the second fails the same way. */
  lemma BuildIsRepeatable(st: BuilderState, randomSalt1: Salt, randomSalt2: Salt)
    ensures BuildStep(BuildStep(st, randomSalt1).1, randomSalt2) == BuildStep(st, randomSalt1)
  {
  }

  /** A fresh builder driven by a chain of setter calls and then built: it
      fails exactly when the last element set was null (or none was set),
      and otherwise carries the last element set and the last salt set, or
      the generated salt when that is null. */
  lemma BuildAfterSetters(calls: seq<Setter>, randomSalt: Salt)
    ensures var r := BuildStep(Replay(BuilderState(None, None), calls), randomSalt).0;
      && (r.Failure? <==> LastArrayElement(calls, None) == None)
      && (r.Success? ==> Some(r.value.arrayElement) == LastArrayElement(calls, None))
      && (r.Success? ==> r.value.salt == match LastSalt(calls, None)
                                         case Some(s) => s
                                         case None => randomSalt)
  {
    ReplayKeepsLastWrite(BuilderState(None, None), calls);
  }

  /** The mutable builder: each setter assigns its own field and returns the
      builder itself for chaining. */
  class Builder {
    var salt: Option<Salt>
    var arrayElement: Option<Json>

    function State(): (r: BuilderState)
      reads this
    {
      BuilderState(salt, arrayElement)
    }

    /** A builder with both fields null. */
    constructor ()
      ensures salt == None && arrayElement == None
    {
      salt := None;
      arrayElement := None;
    }

    method WithSalt(s: Option<Salt>) returns (b: Builder)
      modifies this
      ensures b == this
      ensures salt == s && arrayElement == old(arrayElement)
      ensures State() == Apply(old(State()), SetSalt(s))
    {
      salt := s;
      b := this;
    }

    method WithArrayElement(e: Option<Json>) returns (b: Builder)
      modifies this
      ensures b == this
      ensures arrayElement == e && salt == old(salt)
      ensures State() == Apply(old(State()), SetArrayElement(e))
    {
      arrayElement := e;
      b := this;
    }

    /** Builds the disclosure; `randomSalt` is the salt the generator would
        produce on this call. */
    method Build(randomSalt: Salt) returns (r: Result<UndisclosedArrayElement, BuildError>)
      modifies this
      ensures (r, State()) == BuildStep(old(State()), randomSalt)
      ensures r.Failure? <==> old(arrayElement) == None
      ensures r.Success? ==> Some(r.value.arrayElement) == old(arrayElement) && salt == Some(r.value.salt)
    {
      if arrayElement.None? {
        return Failure(NullPointerException(ArrayElementMissing));
      }
      salt := if salt.None? then Some(randomSalt) else salt;
      r := Success(UndisclosedArrayElement(salt.value, arrayElement.value));
    }
  }

  /** A new builder with both fields null. */
  method NewBuilder() returns (b: Builder)
    ensures fresh(b) && b.State() == BuilderState(None, None)
  {
    b := new Builder();
  }
}
