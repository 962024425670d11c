/**
 * Forward-compatible decoding of string-valued enums. A response field typed
 * `SomeEnum | str` keeps a wire string it does not recognise as that raw
 * string instead of rejecting it; a request field typed `SomeEnum` alone
 * accepts known members only.
 */
module EnumCodec {
  import opened Wrappers

  /** The value of an `Enum | str` field: a known member or the raw wire string. */
  datatype Decoded<E> = Known(member: E) | Unknown(raw: string)

  /**
   * `wire` (a member's string value) and `parse` (recognising a wire string)
   * are inverse: every member parses back from its value, and a string parses
   * only to the member whose value it is. This is what makes an enum's wire
   * strings pairwise distinct.
   */
  ghost predicate IsCodec<E(!new)>(wire: E -> string, parse: string -> Option<E>)
  {
    && (forall e :: parse(wire(e)) == Some(e))
    && (forall s :: parse(s).Some? ==> wire(parse(s).value) == s)
  }

  /** Lenient decoding of one `Enum | str` value. */
  function Decode<E>(parse: string -> Option<E>, s: string): (d: Decoded<E>)
    ensures d.Unknown? <==> parse(s).None?
    ensures d.Unknown? ==> d.raw == s
    ensures d.Known? ==> d.member == parse(s).value
  {
    match parse(s)
    case Some(e) => Known(e)
    case None => Unknown(s)
  }

  /** The wire string of an `Enum | str` value: a member's value, or the raw string kept. */
  function Encode<E>(wire: E -> string, d: Decoded<E>): string
  {
    match d
    case Known(e) => wire(e)
    case Unknown(s) => s
  }

  /** Strict decoding of a request-side enum field: an unknown string is an error carrying that string. */
  function DecodeStrict<E>(parse: string -> Option<E>, s: string): (r: Result<E, string>)
    ensures r.Err? <==> parse(s).None?
    ensures r.Err? ==> r.error == s
    ensures r.Ok? ==> Some(r.value) == parse(s)
  {
    match parse(s)
    case Some(e) => Ok(e)
    case None => Err(s)
  }

  /** A decoded value that decoding can actually produce: a kept raw string is never a known member's value. */
  predicate Canonical<E>(parse: string -> Option<E>, d: Decoded<E>)
  {
    d.Unknown? ==> parse(d.raw).None?
  }

  /** Decoding, then taking the wire string, gives back exactly what was received. */
  lemma EncodeDecode<E(!new)>(wire: E -> string, parse: string -> Option<E>, s: string)
    requires IsCodec(wire, parse)
    ensures Encode(wire, Decode(parse, s)) == s
  {
  }

  /** A known member's value decodes to that member, never to a raw string. */
  lemma DecodeKnown<E(!new)>(wire: E -> string, parse: string -> Option<E>, e: E)
    requires IsCodec(wire, parse)
    ensures Decode(parse, wire(e)) == Known(e)
    ensures DecodeStrict(parse, wire(e)) == Ok(e)
  {
  }

  /** Encoding a canonical value and decoding it again is the identity. */
  lemma DecodeEncode<E(!new)>(wire: E -> string, parse: string -> Option<E>, d: Decoded<E>)
    requires IsCodec(wire, parse) && Canonical(parse, d)
    ensures Decode(parse, Encode(wire, d)) == d
  {
  }

  /** Two members with the same wire string are the same member. */
  lemma WireInjective<E(!new)>(wire: E -> string, parse: string -> Option<E>, a: E, b: E)
    requires IsCodec(wire, parse)
    requires wire(a) == wire(b)
    ensures a == b
  {
    assert Some(a) == parse(wire(a)) == parse(wire(b)) == Some(b);
  }

  /** Element-wise lenient decoding of a `list[Enum | str]`, in order. */
  function DecodeList<E>(parse: string -> Option<E>, ss: seq<string>): (ds: seq<Decoded<E>>)
    decreases |ss|
  {
    if ss == [] then [] else [Decode(parse, ss[0])] + DecodeList(parse, ss[1..])
  }

  /** The wire strings of a list of decoded values, in order. */
  function EncodeList<E>(wire: E -> string, ds: seq<Decoded<E>>): (ss: seq<string>)
    decreases |ds|
  {
    if ds == [] then [] else [Encode(wire, ds[0])] + EncodeList(wire, ds[1..])
  }

  /** Lenient list decoding never fails, keeps the length, and decodes each position on its own. */
  lemma {:induction false} DecodeListPointwise<E>(parse: string -> Option<E>, ss: seq<string>)
    ensures |DecodeList(parse, ss)| == |ss|
    ensures forall i :: 0 <= i < |ss| ==> DecodeList(parse, ss)[i] == Decode(parse, ss[i])
    decreases |ss|
  {
    if ss != [] {
      DecodeListPointwise(parse, ss[1..]);
    }
  }

  /** Lenient list decoding is undone by encoding: order and unknown entries survive. */
  lemma {:induction false} EncodeDecodeList<E(!new)>(wire: E -> string, parse: string -> Option<E>, ss: seq<string>)
    requires IsCodec(wire, parse)
    ensures EncodeList(wire, DecodeList(parse, ss)) == ss
    decreases |ss|
  {
    if ss != [] {
      EncodeDecodeList(wire, parse, ss[1..]);
    }
  }

  /** Strict element-wise decoding of a `list[Enum]`: the first unknown string is the error. */
  function DecodeListStrict<E>(parse: string -> Option<E>, ss: seq<string>): (r: Result<seq<E>, string>)
    decreases |ss|
  {
    if ss == [] then Ok([])
    else
      match DecodeStrict(parse, ss[0])
      case Err(s) => Err(s)
      case Ok(e) =>
        match DecodeListStrict(parse, ss[1..])
        case Err(s) => Err(s)
        case Ok(es) => Ok([e] + es)
  }

  /** The wire strings of a list of members, in order. */
  function WireList<E>(wire: E -> string, es: seq<E>): (ss: seq<string>)
    ensures |ss| == |es|
    ensures forall i :: 0 <= i < |es| ==> ss[i] == wire(es[i])
    decreases |es|
  {
    if es == [] then [] else [wire(es[0])] + WireList(wire, es[1..])
  }

  /**
   * Strict list decoding succeeds exactly when every string is a known value,
   * and then yields the members in the same order.
   */
  lemma {:induction false} DecodeListStrictSpec<E>(parse: string -> Option<E>, ss: seq<string>)
    ensures DecodeListStrict(parse, ss).Ok? <==> (forall i :: 0 <= i < |ss| ==> parse(ss[i]).Some?)
    ensures DecodeListStrict(parse, ss).Ok? ==>
              |DecodeListStrict(parse, ss).value| == |ss| &&
              forall i :: 0 <= i < |ss| ==> Some(DecodeListStrict(parse, ss).value[i]) == parse(ss[i])
    ensures DecodeListStrict(parse, ss).Err? ==> parse(DecodeListStrict(parse, ss).error).None?
    decreases |ss|
  {
    if ss != [] {
      DecodeListStrictSpec(parse, ss[1..]);
      assert forall i :: 1 <= i < |ss| ==> ss[i] == ss[1..][i - 1];
    }
  }

  /** A request list of members goes out and comes back unchanged through strict decoding. */
  lemma {:induction false} StrictRoundTrip<E(!new)>(wire: E -> string, parse: string -> Option<E>, es: seq<E>)
    requires IsCodec(wire, parse)
    ensures DecodeListStrict(parse, WireList(wire, es)) == Ok(es)
    decreases |es|
  {
    if es != [] {
      StrictRoundTrip(wire, parse, es[1..]);
      var ss := WireList(wire, es);
      assert ss == [wire(es[0])] + WireList(wire, es[1..]);
      assert ss[1..] == WireList(wire, es[1..]);
      assert DecodeStrict(parse, ss[0]) == Ok(es[0]);
      assert [es[0]] + es[1..] == es;
    }
  }
}
