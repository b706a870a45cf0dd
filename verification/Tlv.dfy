/** Tag-length-value fields: two characters of tag, two digits of length, then the value. */
module Tlv {
  import opened Entities

  datatype Field = Field(tag: string, value: string)

  predicate IsDigit(c: char) {
    '0' <= c <= '9'
  }

  function DigitValue(c: char): nat
    requires IsDigit(c)
  {
    c as int - '0' as int
  }

  function TwoDigits(n: nat): string
    requires n <= 99
  {
    ["0123456789"[n / 10], "0123456789"[n % 10]]
  }

  /** None is SgqrError: the value is too long for a two-digit length. */
  function Encode(tag: string, value: string): Option<string> {
    if |value| > 99 then None else Some(tag + TwoDigits(|value|) + value)
  }

  predicate Encodable(f: Field) {
    |f.tag| == 2 && |f.value| <= 99
  }

  predicate AllEncodable(fields: seq<Field>) {
    forall i | 0 <= i < |fields| :: Encodable(fields[i])
  }

  function Encoded(f: Field): (r: string)
    requires Encodable(f)
    ensures |r| == 4 + |f.value| && r[..2] == f.tag && r[4..] == f.value
    ensures '0' <= r[2] <= '9' && '0' <= r[3] <= '9'
    ensures 10 * (r[2] as int - '0' as int) + (r[3] as int - '0' as int) == |f.value|
  {
    TwoDigitsRoundTrip(|f.value|);
    Encode(f.tag, f.value).value
  }

  function EncodeAll(fields: seq<Field>): string
    requires AllEncodable(fields)
  {
    if fields == [] then ""
    else EncodeAll(fields[..|fields| - 1]) + Encoded(fields[|fields| - 1])
  }

  /** The dictionary a list of fields builds: a repeated tag keeps its last value. */
  function AsMap(fields: seq<Field>): map<string, string> {
    if fields == [] then map[]
    else
      var n := |fields| - 1;
      AsMap(fields[..n])[fields[n].tag := fields[n].value]
  }

  function Min(a: nat, b: nat): nat {
    if a <= b then a else b
  }

  /** Python's payload[i:j], which clips both ends to the text. */
  function Slice(payload: string, i: nat, j: nat): string
    requires i <= j
  {
    payload[Min(i, |payload|)..Min(j, |payload|)]
  }

  /** One turn of the parsing loop at position i: the field there and where the next one starts. */
  function FieldAt(payload: string, i: nat): Option<(Field, nat)>
    requires i < |payload|
  {
    var digits := Slice(payload, i + 2, i + 4);
    if |digits| == 2 && IsDigit(digits[0]) && IsDigit(digits[1]) then
      var length := 10 * DigitValue(digits[0]) + DigitValue(digits[1]);
      Some((Field(Slice(payload, i, i + 2), Slice(payload, i + 4, i + 4 + length)), i + 4 + length))
    else None
  }

  /** The fields found from position i on; None is the ValueError of a length that is not a number. */
  function FieldsFrom(payload: string, i: nat): Option<seq<Field>>
    decreases |payload| - i
  {
    if i >= |payload| then Some([])
    else
      var here := FieldAt(payload, i);
      if here == None then None
      else
        Prepend([here.value.0], FieldsFrom(payload, here.value.1))
  }

  function Prepend(fields: seq<Field>, rest: Option<seq<Field>>): Option<seq<Field>> {
    if rest == None then None else Some(fields + rest.value)
  }

  lemma PrependNothing(rest: Option<seq<Field>>)
    ensures Prepend([], rest) == rest
  {
    if rest.Some? {
      assert [] + rest.value == rest.value;
    }
  }

  lemma PrependTwice(a: seq<Field>, b: seq<Field>, rest: Option<seq<Field>>)
    ensures Prepend(a, Prepend(b, rest)) == Prepend(a + b, rest)
  {
    if rest.Some? {
      assert a + (b + rest.value) == a + b + rest.value;
    }
  }

  /** One more turn of the parsing loop. */
  lemma OneMoreField(text: string, start: nat, seen: seq<Field>, i: nat, f: Field, j: nat)
    requires FieldsFrom(text, start) == Prepend(seen, FieldsFrom(text, i))
    requires i < |text| && FieldAt(text, i) == Some((f, j))
    ensures FieldsFrom(text, start) == Prepend(seen + [f], FieldsFrom(text, j))
  {
    PrependTwice(seen, [f], FieldsFrom(text, j));
  }

  lemma FieldAtAdvances(text: string, i: nat)
    requires i < |text| && FieldAt(text, i).Some?
    ensures FieldAt(text, i).value.1 >= i + 4
  {
  }

  lemma ParsingStops(text: string, i: nat)
    ensures i >= |text| ==> FieldsFrom(text, i) == Some([])
    ensures i < |text| && FieldAt(text, i) == None ==> FieldsFrom(text, i) == None
  {
  }

  method ParseTlv(payload: string) returns (r: Option<map<string, string>>)
    ensures r == match FieldsFrom(payload, 0) case None => None case Some(fields) => Some(AsMap(fields))
  {
    hide FieldsFrom, FieldAt;
    var fields: map<string, string> := map[];
    var i: nat := 0;
    ghost var seen: seq<Field> := [];
    PrependNothing(FieldsFrom(payload, 0));
    while i < |payload|
      invariant fields == AsMap(seen)
      invariant FieldsFrom(payload, 0) == Prepend(seen, FieldsFrom(payload, i))
    {
      var here := FieldAt(payload, i);
      if here == None {
        ParsingStops(payload, i);
        return None;
      }
      assert (seen + [here.value.0])[..|seen|] == seen;
      OneMoreField(payload, 0, seen, i, here.value.0, here.value.1);
      FieldAtAdvances(payload, i);
      fields := fields[here.value.0.tag := here.value.0.value];
      i := here.value.1;
      seen := seen + [here.value.0];
    }
    ParsingStops(payload, i);
    assert seen + [] == seen;
    return Some(fields);
  }

  lemma TwoDigitsRoundTrip(n: nat)
    requires n <= 99
    ensures IsDigit(TwoDigits(n)[0]) && IsDigit(TwoDigits(n)[1])
    ensures 10 * DigitValue(TwoDigits(n)[0]) + DigitValue(TwoDigits(n)[1]) == n
  {
    var digits := "0123456789";
    assert forall k | 0 <= k < 10 :: digits[k] as int == '0' as int + k;
  }

  /** A field encoded anywhere in a text is read back there. */
  lemma FieldAtEncoded(before: string, f: Field, after: string)
    requires Encodable(f)
    ensures FieldAt(before + Encoded(f) + after, |before|) == Some((f, |before + Encoded(f)|))
  {
    var i, n := |before|, |f.value|;
    var text := before + Encoded(f) + after;
    TwoDigitsRoundTrip(n);
    assert Slice(text, i, i + 2) == f.tag;
    assert Slice(text, i + 2, i + 4) == TwoDigits(n);
    assert Slice(text, i + 4, i + 4 + n) == f.value;
  }

  /** Every list of two-character tags with values of at most 99 characters is read back as it was
      written, also amid other text; no tag need be distinct for that. */
  lemma {:induction false} FieldsFromEncoded(before: string, fields: seq<Field>, after: string)
    requires AllEncodable(fields)
    ensures FieldsFrom(before + EncodeAll(fields) + after, |before|)
         == Prepend(fields, FieldsFrom(before + EncodeAll(fields) + after, |before + EncodeAll(fields)|))
    decreases |fields|
  {
    hide FieldsFrom, FieldAt, Prepend;
    var text := before + EncodeAll(fields) + after;
    if fields == [] {
      assert before + EncodeAll(fields) == before;
      PrependNothing(FieldsFrom(text, |before|));
    } else {
      var n := |fields| - 1;
      var f := fields[n];
      var middle := before + EncodeAll(fields[..n]);
      assert text == middle + (Encoded(f) + after) && text == middle + Encoded(f) + after;
      assert middle + Encoded(f) == before + EncodeAll(fields);
      FieldsFromEncoded(before, fields[..n], Encoded(f) + after);
      FieldAtEncoded(middle, f, after);
      OneMoreField(text, |before|, fields[..n], |middle|, f, |middle + Encoded(f)|);
      assert fields[..n] + [f] == fields;
    }
  }

  lemma RoundTrip(fields: seq<Field>)
    requires AllEncodable(fields)
    ensures FieldsFrom(EncodeAll(fields), 0) == Some(fields)
  {
    hide FieldsFrom, EncodeAll;
    var text := EncodeAll(fields);
    assert "" + text + "" == text && "" + text == text;
    FieldsFromEncoded("", fields, "");
    ParsingStops(text, |text|);
    assert fields + [] == fields;
  }

  // ----- what the parser makes of any text

  /** The text is an encoding whose end is cut off inside its last value, by `pad`; `found` are the fields with
      that value cut short. */
  ghost predicate IsReading(text: string, fields: seq<Field>, pad: string, found: seq<Field>) {
    && AllEncodable(fields) && text + pad == EncodeAll(fields) && |found| == |fields|
    && if fields == [] then pad == ""
       else
         var n := |fields| - 1;
         && |pad| <= |fields[n].value| && found[..n] == fields[..n]
         && found[n] == Field(fields[n].tag, fields[n].value[..|fields[n].value| - |pad|])
  }

  /** The parser finds these fields in a text exactly if the text reads so; a text that reads in no way is
      an error. */
  lemma ParsesIff(text: string, found: seq<Field>)
    ensures FieldsFrom(text, 0) == Some(found) <==> exists fields, pad :: IsReading(text, fields, pad, found)
  {
    hide FieldsFrom, IsReading;
    if FieldsFrom(text, 0) == Some(found) {
      var fields, pad := ReadFrom(text, 0, found);
      assert text[0..] == text;
    }
    if fields, pad :| IsReading(text, fields, pad, found) {
      ReadingParses(text, fields, pad, found);
    }
  }

  lemma ReadingParses(text: string, fields: seq<Field>, pad: string, found: seq<Field>)
    requires IsReading(text, fields, pad, found)
    ensures FieldsFrom(text, 0) == Some(found)
  {
    hide FieldsFrom, FieldAt, EncodeAll;
    if fields == [] {
      EncodeNothing();
      assert text == "" && found == [];
      ParsingStops(text, 0);
    } else {
      var n := |fields| - 1;
      var last, before := fields[n], EncodeAll(fields[..n]);
      EncodeLast(fields);
      var cut := Encoded(last)[..4 + |last.value| - |pad|];
      assert text == before + cut by {
        assert text == (text + pad)[..|text|];
        assert (before + Encoded(last))[..|text|] == before + Encoded(last)[..|text| - |before|];
      }
      assert "" + before + cut == text && "" + before == before;
      FieldsFromEncoded("", fields[..n], cut);
      CutFieldAt(before, last, |pad|);
      var end := |before| + 4 + |last.value|;
      OneMoreField(text, 0, fields[..n], |before|, found[n], end);
      ParsingStops(text, end);
      assert fields[..n] + [found[n]] + [] == found;
    }
  }

  lemma EncodeNothing()
    ensures EncodeAll([]) == ""
  {
  }

  lemma EncodeLast(fields: seq<Field>)
    requires AllEncodable(fields) && fields != []
    ensures EncodeAll(fields) == EncodeAll(fields[..|fields| - 1]) + Encoded(fields[|fields| - 1])
  {
  }

  lemma {:induction false} EncodeFirst(f: Field, fields: seq<Field>)
    requires Encodable(f) && AllEncodable(fields)
    ensures EncodeAll([f] + fields) == Encoded(f) + EncodeAll(fields)
  {
    hide EncodeAll;
    EncodeLast([f] + fields);
    EncodeNothing();
    if fields == [] {
      assert ([f] + fields)[..0] == [];
    } else {
      var n := |fields| - 1;
      EncodeFirst(f, fields[..n]);
      EncodeLast(fields);
      assert ([f] + fields)[..n + 1] == [f] + fields[..n];
    }
  }

  /** A field whose value is cut off at the end of the text. */
  lemma CutFieldAt(before: string, f: Field, missing: nat)
    requires Encodable(f) && missing <= |f.value|
    ensures FieldAt(before + Encoded(f)[..4 + |f.value| - missing], |before|)
         == Some((Field(f.tag, f.value[..|f.value| - missing]), |before| + 4 + |f.value|))
  {
    var i, n := |before|, |f.value|;
    var text := before + Encoded(f)[..4 + n - missing];
    TwoDigitsRoundTrip(n);
    assert Slice(text, i, i + 2) == f.tag;
    assert Slice(text, i + 2, i + 4) == Encoded(f)[2..4];
    assert Slice(text, i + 4, i + 4 + n) == f.value[..n - missing];
  }

  /** What was parsed from position i on reads so. */
  lemma {:induction false} ReadFrom(text: string, i: nat, found: seq<Field>) returns (fields: seq<Field>, pad: string)
    requires i <= |text| && FieldsFrom(text, i) == Some(found)
    ensures IsReading(text[i..], fields, pad, found)
    decreases |text| - i
  {
    hide EncodeAll, FieldAt, IsReading;
    if i == |text| {
      fields, pad := [], "";
      ParsingStops(text, i);
      NoReading(text[i..]);
    } else {
      var f, end := FieldAt(text, i).value.0, FieldAt(text, i).value.1;
      var whole, missing := FieldRead(text, i);
      FieldAtAdvances(text, i);
      var later := FieldsFrom(text, end).value;
      assert found == [f] + later && found[1..] == later;
      if end >= |text| {
        ParsingStops(text, end);
        fields, pad := [whole], missing;
        OneReading(text[i..], whole, missing, f);
        assert found == [f];
      } else {
        var rest;
        rest, pad := ReadFrom(text, end, later);
        fields := [f] + rest;
        ReadingGrows(text[end..], rest, pad, later, f);
        assert text[i..end] + "" == text[i..end];
        assert text[i..] == Encoded(f) + text[end..];
      }
    }
  }

  lemma NoReading(text: string)
    requires text == ""
    ensures IsReading(text, [], "", [])
  {
  }

  lemma OneReading(text: string, whole: Field, missing: string, f: Field)
    requires Encodable(whole) && whole.tag == f.tag && whole.value == f.value + missing
    requires text + missing == Encoded(whole)
    ensures IsReading(text, [whole], missing, [f])
  {
    hide EncodeAll;
    EncodeNothing();
    EncodeFirst(whole, []);
    assert [whole] + [] == [whole] && Encoded(whole) + "" == Encoded(whole);
    assert [whole][..0] == [f][..0];
  }

  lemma ReadingGrows(text: string, fields: seq<Field>, pad: string, found: seq<Field>, f: Field)
    requires IsReading(text, fields, pad, found) && Encodable(f) && text != ""
    ensures IsReading(Encoded(f) + text, [f] + fields, pad, [f] + found)
  {
    hide EncodeAll;
    EncodeFirst(f, fields);
    EncodeNothing();
    assert Encoded(f) + text + pad == Encoded(f) + (text + pad);
    var n := |fields| - 1;
    assert ([f] + fields)[..n + 1] == [f] + fields[..n] && ([f] + found)[..n + 1] == [f] + found[..n];
  }

  /** The field at position i, with what the end of the text cuts off of it. */
  lemma FieldRead(text: string, i: nat) returns (whole: Field, missing: string)
    requires i < |text| && FieldAt(text, i).Some?
    ensures var f, end := FieldAt(text, i).value.0, FieldAt(text, i).value.1;
            && Encodable(whole) && whole.tag == f.tag && whole.value == f.value + missing
            && text[i..if end <= |text| then end else |text|] + missing == Encoded(whole)
            && (end <= |text| ==> missing == "" && whole == f)
            && (end >= |text| ==> text[i..] + missing == Encoded(whole))
  {
    var f, end := FieldAt(text, i).value.0, FieldAt(text, i).value.1;
    var length := end - i - 4;
    missing := seq(length - |f.value|, _ => ' ');
    whole := Field(f.tag, f.value + missing);
    var digits := Slice(text, i + 2, i + 4);
    assert digits == text[i + 2..i + 4] && f.tag == text[i..i + 2];
    DigitsOf(digits);
    assert |whole.value| == length;
    assert Encoded(whole) == f.tag + digits + whole.value;
  }

  lemma DigitsOf(digits: string)
    requires |digits| == 2 && IsDigit(digits[0]) && IsDigit(digits[1])
    ensures TwoDigits(10 * DigitValue(digits[0]) + DigitValue(digits[1])) == digits
  {
    var all := "0123456789";
    assert forall k | 0 <= k < 10 :: all[k] as int == '0' as int + k;
  }

  /** The dictionary has every tag, with the last value that was given for it. */
  lemma {:induction false} AsMapIsLast(fields: seq<Field>, tag: string)
    ensures tag in AsMap(fields) <==> exists f :: f in fields && f.tag == tag
    ensures tag in AsMap(fields) ==>
              exists i :: && 0 <= i < |fields| && fields[i] == Field(tag, AsMap(fields)[tag])
                          && forall j | i < j < |fields| :: fields[j].tag != tag
  {
    if fields != [] {
      var n := |fields| - 1;
      AsMapIsLast(fields[..n], tag);
      assert fields == fields[..n] + [fields[n]];
      if fields[n].tag == tag {
        assert fields[n] == Field(tag, AsMap(fields)[tag]);
      }
    }
  }

  /** With distinct tags the dictionary holds every field and nothing else. */
  lemma {:induction false} AsMapDistinct(fields: seq<Field>)
    requires forall i, j | 0 <= i < j < |fields| :: fields[i].tag != fields[j].tag
    ensures forall tag :: tag in AsMap(fields) <==> exists f :: f in fields && f.tag == tag
    ensures forall f | f in fields :: f.tag in AsMap(fields) && AsMap(fields)[f.tag] == f.value
  {
    if fields != [] {
      var n := |fields| - 1;
      AsMapDistinct(fields[..n]);
      assert fields == fields[..n] + [fields[n]];
    }
  }
}
