/**
 * The MQTT field-set payload every variant publishes:
 * `key1=v1&key2=v2&...&status=MQTTPUBLISH`, each value written as Python's
 * str() writes an int. Decode is a reference reader of this format; the
 * round trip shows the wire format loses nothing and keeps the field order.
 */
module Payload {
  import opened Common

  const Sentinel: string := "status=MQTTPUBLISH"

  /** A field name that can stand on the left of `=` in the payload. */
  predicate ValidKey(key: string)
  {
    '&' !in key && '=' !in key
  }

  predicate ValidKeys(fields: seq<(string, int)>)
  {
    forall i :: 0 <= i < |fields| ==> ValidKey(fields[i].0)
  }

  // ---------------------------------------------------------------------------
  // Integers as decimal text

  predicate IsDigit(c: char)
  {
    '0' <= c <= '9'
  }

  function Digit(d: nat): (c: char)
    requires d < 10
    ensures IsDigit(c)
  {
    (('0' as int) + d) as char
  }

  function DigitValue(c: char): nat
  {
    if IsDigit(c) then (c as int) - ('0' as int) else 0
  }

  /** Decimal digits of a natural number, most significant first, no leading zeros. */
  function NatToString(n: nat): (r: string)
    ensures |r| > 0
    ensures forall i :: 0 <= i < |r| ==> IsDigit(r[i])
    decreases n
  {
    if n < 10 then [Digit(n)] else NatToString(n / 10) + [Digit(n % 10)]
  }

  /** str(i) for a Python int: a leading '-' for negatives, then the digits. */
  function IntToString(i: int): (r: string)
    ensures '&' !in r && '=' !in r
  {
    if i < 0 then "-" + NatToString(-i) else NatToString(i)
  }

  function ParseNat(s: string): nat
    decreases |s|
  {
    if s == [] then 0 else ParseNat(s[..|s| - 1]) * 10 + DigitValue(s[|s| - 1])
  }

  function ParseInt(s: string): int
  {
    if |s| > 0 && s[0] == '-' then -(ParseNat(s[1..]) as int) else ParseNat(s)
  }

  lemma {:induction false} ParseNatToString(n: nat)
    ensures ParseNat(NatToString(n)) == n
  {
    var s := NatToString(n);
    if n >= 10 {
      ParseNatToString(n / 10);
      assert s[..|s| - 1] == NatToString(n / 10);
    }
  }

  lemma IntToStringRoundTrip(i: int)
    ensures ParseInt(IntToString(i)) == i
  {
    if i < 0 {
      var s := IntToString(i);
      assert s[1..] == NatToString(-i);
      ParseNatToString(-i);
    } else {
      ParseNatToString(i);
    }
  }

  // ---------------------------------------------------------------------------
  // Splitting on a separator

  /** The index of the first `c` in `s`, or |s| when there is none. */
  function IndexOf(s: string, c: char): (i: nat)
    ensures i <= |s|
    ensures i < |s| ==> s[i] == c
    ensures forall j :: 0 <= j < i ==> s[j] != c
  {
    if s == [] then 0 else if s[0] == c then 0 else 1 + IndexOf(s[1..], c)
  }

  /** The pieces of `s` between separators, as str.split does. */
  function Split(s: string, sep: char): (r: seq<string>)
    ensures |r| >= 1
    decreases |s|
  {
    var i := IndexOf(s, sep);
    if i == |s| then [s] else [s[..i]] + Split(s[i + 1..], sep)
  }

  /** In `a + [c] + b`, where `a` holds no `c`, the first `c` is the one after `a`. */
  lemma IndexAfterPrefix(a: string, c: char, b: string)
    requires c !in a
    ensures IndexOf(a + [c] + b, c) == |a|
  {
    var s := a + [c] + b;
    assert s[|a|] == c;
    assert forall j :: 0 <= j < |a| ==> s[j] == a[j];
  }

  /** Splitting `a + [sep] + b`, where `a` holds no separator, yields `a` and then the pieces of `b`. */
  lemma SplitAfterFirst(a: string, sep: char, b: string)
    requires sep !in a
    ensures Split(a + [sep] + b, sep) == [a] + Split(b, sep)
  {
    var s := a + [sep] + b;
    IndexAfterPrefix(a, sep, b);
    assert s[..|a|] == a;
    assert s[|a| + 1..] == b;
  }

  // ---------------------------------------------------------------------------
  // Field-sets

  /** One `key=value` segment. */
  function EncodeField(field: (string, int)): (r: string)
    ensures ValidKey(field.0) ==> '&' !in r
  {
    field.0 + "=" + IntToString(field.1)
  }

  function EncodeFields(fields: seq<(string, int)>): (r: seq<string>)
    ensures |r| == |fields|
  {
    if fields == [] then [] else [EncodeField(fields[0])] + EncodeFields(fields[1..])
  }

  /** The payload string: each field as `key=value` followed by '&', then the sentinel. */
  function Payload(fields: seq<(string, int)>): string
  {
    if fields == [] then Sentinel else EncodeField(fields[0]) + "&" + Payload(fields[1..])
  }

  function DecodeField(segment: string): Option<(string, int)>
  {
    var i := IndexOf(segment, '=');
    if i == |segment| then None else Some((segment[..i], ParseInt(segment[i + 1..])))
  }

  function DecodeFields(segments: seq<string>): Option<seq<(string, int)>>
  {
    if segments == [] then Some([])
    else match DecodeField(segments[0])
      case None => None
      case Some(f) =>
        match DecodeFields(segments[1..])
        case None => None
        case Some(fs) => Some([f] + fs)
  }

  /** A reference reader of the format: the fields before a trailing sentinel. */
  function Decode(payload: string): Option<seq<(string, int)>>
  {
    var segments := Split(payload, '&');
    if segments[|segments| - 1] != Sentinel then None
    else DecodeFields(segments[..|segments| - 1])
  }

  lemma DecodeEncodeField(field: (string, int))
    requires ValidKey(field.0)
    ensures DecodeField(EncodeField(field)) == Some(field)
  {
    var s := EncodeField(field);
    IndexAfterPrefix(field.0, '=', IntToString(field.1));
    assert s[..|field.0|] == field.0;
    assert s[|field.0| + 1..] == IntToString(field.1);
    IntToStringRoundTrip(field.1);
  }

  lemma DecodeFieldsCons(segment: string, rest: seq<string>, f: (string, int), fs: seq<(string, int)>)
    requires DecodeField(segment) == Some(f)
    requires DecodeFields(rest) == Some(fs)
    ensures DecodeFields([segment] + rest) == Some([f] + fs)
  {
    assert ([segment] + rest)[0] == segment;
    assert ([segment] + rest)[1..] == rest;
  }

  lemma ValidKeysTail(fields: seq<(string, int)>)
    requires fields != [] && ValidKeys(fields)
    ensures ValidKey(fields[0].0) && ValidKeys(fields[1..])
  {
    forall i | 0 <= i < |fields[1..]|
      ensures ValidKey(fields[1..][i].0)
    {
      assert fields[1..][i] == fields[i + 1];
    }
  }

  lemma EncodeFieldsCons(fields: seq<(string, int)>)
    requires fields != []
    ensures EncodeFields(fields) == [EncodeField(fields[0])] + EncodeFields(fields[1..])
  {
  }

  lemma {:induction false} DecodeEncodeFields(fields: seq<(string, int)>)
    requires ValidKeys(fields)
    ensures DecodeFields(EncodeFields(fields)) == Some(fields)
  {
    if fields != [] {
      ValidKeysTail(fields);
      DecodeEncodeField(fields[0]);
      DecodeEncodeFields(fields[1..]);
      DecodeFieldsCons(EncodeField(fields[0]), EncodeFields(fields[1..]), fields[0], fields[1..]);
      EncodeFieldsCons(fields);
      assert fields == [fields[0]] + fields[1..];
    }
  }

  lemma SplitSentinel()
    ensures Split(Sentinel, '&') == [Sentinel]
  {
    assert '&' !in Sentinel;
    assert IndexOf(Sentinel, '&') == |Sentinel|;
  }

  lemma SplitPayloadCons(fields: seq<(string, int)>)
    requires fields != [] && ValidKeys(fields)
    requires Split(Payload(fields[1..]), '&') == EncodeFields(fields[1..]) + [Sentinel]
    ensures Split(Payload(fields), '&') == EncodeFields(fields) + [Sentinel]
  {
    var head := EncodeField(fields[0]);
    var tail := Payload(fields[1..]);
    ValidKeysTail(fields);
    assert '&' !in head;
    assert Payload(fields) == head + ['&'] + tail;
    SplitAfterFirst(head, '&', tail);
    EncodeFieldsCons(fields);
    ConsSnoc(head, EncodeFields(fields[1..]), Sentinel);
  }

  lemma ConsSnoc<T>(x: T, middle: seq<T>, y: T)
    ensures [x] + (middle + [y]) == ([x] + middle) + [y]
  {
  }

  /** The payload splits on '&' into exactly the encoded fields and the sentinel. */
  lemma {:induction false} SplitPayload(fields: seq<(string, int)>)
    requires ValidKeys(fields)
    ensures Split(Payload(fields), '&') == EncodeFields(fields) + [Sentinel]
  {
    if fields == [] {
      SplitSentinel();
    } else {
      ValidKeysTail(fields);
      SplitPayload(fields[1..]);
      SplitPayloadCons(fields);
    }
  }

  /** The payload decodes to exactly the fields it was built from, in order. */
  lemma PayloadRoundTrip(fields: seq<(string, int)>)
    requires ValidKeys(fields)
    ensures Decode(Payload(fields)) == Some(fields)
  {
    SplitPayload(fields);
    var segments := EncodeFields(fields) + [Sentinel];
    assert segments[|segments| - 1] == Sentinel;
    assert segments[..|segments| - 1] == EncodeFields(fields);
    DecodeEncodeFields(fields);
  }
}
