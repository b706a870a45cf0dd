/** The payment QR payload: a list of TLV fields closed by its checksum. */
module Sgqr {
  import opened Entities
  import opened Tlv
  import opened Crc16
  import opened Division

  /** A decimal amount as the payload uses it: whether it is positive, and how it prints. */
  datatype Amount = Amount(positive: bool, text: string)

  datatype Result = Payload(text: string) | SgqrError | UnicodeEncodeError

  const CURRENCY_NUMERIC: map<string, string> :=
    map["SGD" := "702", "USD" := "840", "EUR" := "978", "GBP" := "826"]

  function Prefix(text: string, n: nat): string {
    text[..Min(n, |text|)]
  }

  function MerchantAccountFields(accountNumber: string): seq<Field> {
    [Field("00", "SG.PAYNOW"), Field("01", accountNumber)]
  }

  /** The fields a scanner should find, without the checksum. */
  function BodyFields(accountInfo: string, merchantName: string, merchantCity: string, currency: string,
                      amount: Option<Amount>): seq<Field>
    requires currency in CURRENCY_NUMERIC
  {
    [Field("00", "01"), Field("01", if amount.Some? then "12" else "11"), Field("26", accountInfo),
     Field("52", "0000"), Field("53", CURRENCY_NUMERIC[currency])]
    + (if amount.Some? then [Field("54", amount.value.text)] else [])
    + [Field("58", "SG"), Field("59", Prefix(merchantName, 25)), Field("60", Prefix(merchantCity, 15))]
  }

  /** The two lengths a caller has to respect: 17 characters of the account template are fixed. */
  predicate FitsTemplate(accountNumber: string, amount: Option<Amount>) {
    |accountNumber| <= 82 && (amount.Some? ==> |amount.value.text| <= 99)
  }

  lemma BodyFieldsEncodable(accountInfo: string, merchantName: string, merchantCity: string, currency: string,
                            amount: Option<Amount>)
    requires currency in CURRENCY_NUMERIC
    requires |accountInfo| <= 99 && (amount.Some? ==> |amount.value.text| <= 99)
    ensures AllEncodable(BodyFields(accountInfo, merchantName, merchantCity, currency, amount))
  {
  }

  /** The text of a list of fields closed by the checksum of all that precedes its digits. */
  function Closed(body: seq<Field>): string
    requires AllEncodable(body)
  {
    EncodeAll(body) + "6304" + Checksum(EncodeAll(body) + "6304")
  }

  /** The body a successful build encodes. */
  function PayloadFields(accountNumber: string, merchantName: string, merchantCity: string, currency: string,
                         amount: Option<Amount>): (body: seq<Field>)
    requires currency in CURRENCY_NUMERIC && FitsTemplate(accountNumber, amount)
    ensures AllEncodable(body)
  {
    TemplateText(accountNumber);
    var info := EncodeAll(MerchantAccountFields(accountNumber));
    BodyFieldsEncodable(info, merchantName, merchantCity, currency, amount);
    BodyFields(info, merchantName, merchantCity, currency, amount)
  }

  /** One append to the list of encoded fields; the text stands for the joined list. */
  method AddField(text: string, ghost fields: seq<Field>, tag: string, value: string)
    returns (text': string, ghost fields': seq<Field>)
    requires AllEncodable(fields) && text == EncodeAll(fields)
    requires Encodable(Field(tag, value))
    ensures fields' == fields + [Field(tag, value)]
    ensures AllEncodable(fields') && text' == EncodeAll(fields')
  {
    text' := text + Encode(tag, value).value;
    fields' := fields + [Field(tag, value)];
    EncodeAppend(fields, Field(tag, value));
  }

  method EncodeBody(accountInfo: string, merchantName: string, merchantCity: string, currency: string,
                    amount: Option<Amount>) returns (text: string)
    requires currency in CURRENCY_NUMERIC
    requires |accountInfo| <= 99 && (amount.Some? ==> |amount.value.text| <= 99)
    ensures var body := BodyFields(accountInfo, merchantName, merchantCity, currency, amount);
            AllEncodable(body) && text == EncodeAll(body)
  {
    hide EncodeAll, AllEncodable;
    text := "";
    ghost var done: seq<Field> := [];
    EmptyBody();
    text, done := AddField(text, done, "00", "01");
    text, done := AddField(text, done, "01", if amount.Some? then "12" else "11");
    text, done := AddField(text, done, "26", accountInfo);
    text, done := AddField(text, done, "52", "0000");
    text, done := AddField(text, done, "53", CURRENCY_NUMERIC[currency]);
    if amount.Some? {
      text, done := AddField(text, done, "54", amount.value.text);
    }
    text, done := AddField(text, done, "58", "SG");
    text, done := AddField(text, done, "59", Prefix(merchantName, 25));
    text, done := AddField(text, done, "60", Prefix(merchantCity, 15));
    assert done == BodyFields(accountInfo, merchantName, merchantCity, currency, amount);
  }

  lemma EmptyBody()
    ensures AllEncodable([]) && EncodeAll([]) == ""
  {
  }

  method BuildSgqr(accountNumber: string, merchantName: string, merchantCity: string, currency: string,
                   amount: Option<Amount>) returns (r: Result)
    ensures r.SgqrError? <==>
              (|| currency !in {"SGD", "USD", "EUR", "GBP"}
               || (amount.Some? && !amount.value.positive)
               || |accountNumber| > 82
               || (amount.Some? && |amount.value.text| > 99))
    ensures !r.SgqrError? ==>
              var body := PayloadFields(accountNumber, merchantName, merchantCity, currency, amount);
              r == if IsAscii(EncodeAll(body)) then Payload(Closed(body)) else UnicodeEncodeError
    ensures r.Payload? ==>
              var n := |r.text| - 4;
              n >= 4 && r.text[n - 4..n] == "6304" && IsChecksumOf(r.text[n..], r.text[..n])
  {
    hide Checksum, EncodeAll, BodyFields, IsChecksumOf;
    if currency !in CURRENCY_NUMERIC || (amount.Some? && !amount.value.positive) {
      return SgqrError;
    }
    var template, account := Encode("00", "SG.PAYNOW"), Encode("01", accountNumber);
    if account == None {
      return SgqrError;
    }
    var accountInfo := template.value + account.value;
    TemplateText(accountNumber);
    var info := Encode("26", accountInfo);
    if info == None || (amount.Some? && |amount.value.text| > 99) {
      return SgqrError;
    }
    var fields := EncodeBody(accountInfo, merchantName, merchantCity, currency, amount);
    var payloadWithoutCrc := fields + "6304";
    AsciiTail(fields);
    if !IsAscii(payloadWithoutCrc) {
      return UnicodeEncodeError;
    }
    var crc := ComputeChecksum(payloadWithoutCrc);
    assert (payloadWithoutCrc + crc)[..|payloadWithoutCrc|] == payloadWithoutCrc;
    assert (payloadWithoutCrc + crc)[|payloadWithoutCrc|..] == crc;
    return Payload(payloadWithoutCrc + crc);
  }

  lemma AsciiTail(text: string)
    ensures IsAscii(text + "6304") <==> IsAscii(text)
  {
    if IsAscii(text + "6304") {
      assert forall i | 0 <= i < |text| :: text[i] == (text + "6304")[i];
    }
  }

  lemma EncodeAppend(fields: seq<Field>, f: Field)
    requires AllEncodable(fields) && Encodable(f)
    ensures EncodeAll(fields + [f]) == EncodeAll(fields) + Encoded(f)
  {
    assert (fields + [f])[..|fields|] == fields;
  }

  lemma TemplateText(accountNumber: string)
    requires |accountNumber| <= 99
    ensures AllEncodable(MerchantAccountFields(accountNumber))
    ensures EncodeAll(MerchantAccountFields(accountNumber))
         == Encode("00", "SG.PAYNOW").value + Encode("01", accountNumber).value
    ensures |EncodeAll(MerchantAccountFields(accountNumber))| == 17 + |accountNumber|
  {
    hide EncodeAll, Encode;
    var a, b := Field("00", "SG.PAYNOW"), Field("01", accountNumber);
    EmptyBody();
    EncodeAppend([], a);
    EncodeAppend([a], b);
    assert [] + [a] == [a] && [a] + [b] == MerchantAccountFields(accountNumber);
    assert "" + Encoded(a) == Encoded(a);
  }

  /** None is the UnicodeEncodeError of a body that is not ASCII. */
  function VerifyCrc(payload: string): Option<bool> {
    var cut := if |payload| < 4 then 0 else |payload| - 4;
    var body, crc := payload[..cut], payload[cut..];
    if IsAscii(body) then Some(Checksum(body) == crc) else None
  }

  /** A payload verifies exactly if its last four characters are the checksum of what precedes them; a shorter
      one never does, and other characters before the last four raise. */
  lemma VerifiesIff(payload: string)
    ensures var n := |payload| - 4;
            VerifyCrc(payload) == if n < 0 then Some(false)
                                  else if IsAscii(payload[..n]) then Some(IsChecksumOf(payload[n..], payload[..n]))
                                  else None
  {
    hide Checksum, IsChecksumOf;
    var n := |payload| - 4;
    if n >= 0 {
      var body, crc := payload[..n], payload[n..];
      RegisterDivides(body);
      if IsChecksumOf(crc, body) {
        ChecksumIsUnique(crc, Checksum(body), body);
      }
    }
  }

  lemma ClosedVerifies(body: seq<Field>)
    requires AllEncodable(body)
    ensures VerifyCrc(Closed(body)) == if IsAscii(EncodeAll(body)) then Some(true) else None
  {
    var text := EncodeAll(body) + "6304";
    AsciiTail(EncodeAll(body));
    assert (text + Checksum(text))[..|text|] == text && (text + Checksum(text))[|text|..] == Checksum(text);
  }

  /** The checksum is itself a field: a scanner reads it as the last one. */
  lemma ClosedRoundTrip(body: seq<Field>)
    requires AllEncodable(body)
    ensures FieldsFrom(Closed(body), 0) == Some(body + [Field("63", Checksum(EncodeAll(body) + "6304"))])
  {
    hide Checksum;
    var text := EncodeAll(body) + "6304";
    var last := Field("63", Checksum(text));
    EncodeAppend(body, last);
    assert Encoded(last) == "6304" + Checksum(text);
    assert EncodeAll(body + [last]) == Closed(body);
    RoundTrip(body + [last]);
  }

  /** What a scanner finds in a built payload: a checksum that verifies, one dictionary entry for each
      field that went in, and an account template that decodes in turn. */
  lemma PayloadRoundTrip(accountNumber: string, merchantName: string, merchantCity: string, currency: string,
                         amount: Option<Amount>)
    requires currency in CURRENCY_NUMERIC && FitsTemplate(accountNumber, amount)
    ensures var body := PayloadFields(accountNumber, merchantName, merchantCity, currency, amount);
            && VerifyCrc(Closed(body)) == (if IsAscii(EncodeAll(body)) then Some(true) else None)
            && FieldsFrom(Closed(body), 0).Some?
            && var found := AsMap(FieldsFrom(Closed(body), 0).value);
            && (forall tag :: tag in found <==> tag in BodyTags(amount.Some?) + ["63"])
            && (forall f | f in body :: f.tag in found && found[f.tag] == f.value)
            && body[2].tag == "26"
            && FieldsFrom(body[2].value, 0).Some?
            && AsMap(FieldsFrom(body[2].value, 0).value) == map["00" := "SG.PAYNOW", "01" := accountNumber]
  {
    hide Checksum, EncodeAll, VerifyCrc, FieldsFrom, AsMap, PayloadFields, Closed;
    var body := PayloadFields(accountNumber, merchantName, merchantCity, currency, amount);
    PayloadTags(accountNumber, merchantName, merchantCity, currency, amount);
    ClosedVerifies(body);
    ClosedRoundTrip(body);
    FoundFields(body, Field("63", Checksum(EncodeAll(body) + "6304")), amount.Some?);
    TemplateRoundTrip(accountNumber);
  }

  lemma BodyHas(accountNumber: string, merchantName: string, merchantCity: string, currency: string,
          amount: Option<Amount>)
    requires currency in CURRENCY_NUMERIC && FitsTemplate(accountNumber, amount)
    ensures var body := PayloadFields(accountNumber, merchantName, merchantCity, currency, amount);
            && Field("00", "01") in body && Field("01", if amount.Some? then "12" else "11") in body
            && Field("52", "0000") in body && Field("53", CURRENCY_NUMERIC[currency]) in body
            && (amount.Some? ==> Field("54", amount.value.text) in body)
            && Field("58", "SG") in body && Field("59", Prefix(merchantName, 25)) in body
            && Field("60", Prefix(merchantCity, 15)) in body
  {
    hide EncodeAll, AllEncodable;
    var body := PayloadFields(accountNumber, merchantName, merchantCity, currency, amount);
    var n := |body|;
    assert body[0] in body && body[1] in body && body[3] in body && body[4] in body;
    assert body[n - 3] in body && body[n - 2] in body && body[n - 1] in body;
    if amount.Some? {
      assert body[5] in body;
    }
  }

  lemma CurrencyNumbers()
    ensures CURRENCY_NUMERIC == map["SGD" := "702", "USD" := "840", "EUR" := "978", "GBP" := "826"]
    ensures forall currency :: currency in CURRENCY_NUMERIC <==> currency in {"SGD", "USD", "EUR", "GBP"}
  {
  }

  lemma Prefixes(text: string, n: nat)
    ensures Prefix(text, n) == if |text| <= n then text else text[..n]
  {
  }

  predicate Holds(found: map<string, string>, tag: string, value: string) {
    tag in found && found[tag] == value
  }

  /** What the dictionary holds under each tag. */
  lemma ScannedValues(accountNumber: string, merchantName: string, merchantCity: string, currency: string,
                      amount: Option<Amount>, found: map<string, string>)
    requires currency in CURRENCY_NUMERIC && FitsTemplate(accountNumber, amount)
    requires var closed := Closed(PayloadFields(accountNumber, merchantName, merchantCity, currency, amount));
             FieldsFrom(closed, 0).Some? && found == AsMap(FieldsFrom(closed, 0).value)
    ensures Holds(found, "00", "01") && Holds(found, "01", if amount.Some? then "12" else "11")
    ensures Holds(found, "52", "0000") && Holds(found, "58", "SG")
    ensures currency == "SGD" ==> Holds(found, "53", "702")
    ensures currency == "USD" ==> Holds(found, "53", "840")
    ensures currency == "EUR" ==> Holds(found, "53", "978")
    ensures currency == "GBP" ==> Holds(found, "53", "826")
    ensures amount.Some? ==> Holds(found, "54", amount.value.text)
    ensures Holds(found, "59", if |merchantName| <= 25 then merchantName else merchantName[..25])
    ensures Holds(found, "60", if |merchantCity| <= 15 then merchantCity else merchantCity[..15])
  {
    hide FieldsFrom, AsMap, PayloadFields, Closed, VerifyCrc, CURRENCY_NUMERIC, Prefix, EncodeAll, BodyTags;
    CurrencyNumbers();
    Prefixes(merchantName, 25);
    Prefixes(merchantCity, 15);
    PayloadRoundTrip(accountNumber, merchantName, merchantCity, currency, amount);
    BodyHas(accountNumber, merchantName, merchantCity, currency, amount);
    var body := PayloadFields(accountNumber, merchantName, merchantCity, currency, amount);
    assert forall f | f in body :: f.tag in found && found[f.tag] == f.value;
  }

  lemma PayloadTags(accountNumber: string, merchantName: string, merchantCity: string, currency: string,
                    amount: Option<Amount>)
    requires currency in CURRENCY_NUMERIC && FitsTemplate(accountNumber, amount)
    ensures AllEncodable(MerchantAccountFields(accountNumber))
    ensures var body := PayloadFields(accountNumber, merchantName, merchantCity, currency, amount);
            && |body| == |BodyTags(amount.Some?)|
            && (forall i | 0 <= i < |body| :: body[i].tag == BodyTags(amount.Some?)[i])
            && body[2] == Field("26", EncodeAll(MerchantAccountFields(accountNumber)))
  {
    hide EncodeAll;
    TemplateText(accountNumber);
  }

  lemma TemplateRoundTrip(accountNumber: string)
    requires |accountNumber| <= 82
    ensures AllEncodable(MerchantAccountFields(accountNumber))
    ensures var text := EncodeAll(MerchantAccountFields(accountNumber));
            && FieldsFrom(text, 0).Some?
            && AsMap(FieldsFrom(text, 0).value) == map["00" := "SG.PAYNOW", "01" := accountNumber]
  {
    hide EncodeAll, FieldsFrom, AsMap;
    TemplateText(accountNumber);
    RoundTrip(MerchantAccountFields(accountNumber));
    TemplateMap(accountNumber);
  }

  lemma TemplateMap(accountNumber: string)
    ensures AsMap(MerchantAccountFields(accountNumber)) == map["00" := "SG.PAYNOW", "01" := accountNumber]
  {
    var template := MerchantAccountFields(accountNumber);
    var first := [Field("00", "SG.PAYNOW")];
    assert template[..1] == first && first[..0] == [];
    assert AsMap(first) == map["00" := "SG.PAYNOW"];
    assert "00" != "01" by {
      assert "00"[1] != "01"[1];
    }
  }

  function BodyTags(withAmount: bool): seq<string> {
    ["00", "01", "26", "52", "53"] + (if withAmount then ["54"] else []) + ["58", "59", "60"]
  }

  lemma FoundFields(body: seq<Field>, last: Field, withAmount: bool)
    requires |body| == |BodyTags(withAmount)| && last.tag == "63"
    requires forall i | 0 <= i < |body| :: body[i].tag == BodyTags(withAmount)[i]
    ensures forall f | f in body :: f.tag in AsMap(body + [last]) && AsMap(body + [last])[f.tag] == f.value
    ensures forall tag :: tag in AsMap(body + [last]) <==> tag in BodyTags(withAmount) + ["63"]
  {
    hide AsMap, BodyTags;
    var tags := BodyTags(withAmount) + ["63"];
    var fields := body + [last];
    assert forall i | 0 <= i < |tags| :: fields[i].tag == tags[i];
    BodyTagsDistinct(withAmount);
    AsMapDistinct(fields);
    assert forall f | f in body :: f in fields;
    forall tag ensures tag in AsMap(fields) <==> tag in tags {
      if tag in tags {
        var i :| 0 <= i < |tags| && tags[i] == tag;
        assert fields[i] in fields;
      }
    }
  }

  lemma BodyTagsDistinct(withAmount: bool)
    ensures var tags := BodyTags(withAmount) + ["63"];
            forall i, j | 0 <= i < j < |tags| :: tags[i] != tags[j]
  {
    var tags := BodyTags(withAmount) + ["63"];
    assert forall i | 0 <= i < |tags| :: |tags[i]| == 2;
    var first := if withAmount then "0025555566" else "002555566";
    var second := if withAmount then "0162348903" else "016238903";
    assert forall i | 0 <= i < |tags| :: tags[i][0] == first[i] && tags[i][1] == second[i];
  }

  // ----- tampering

  /** Two texts of one length that differ, but only at positions i and i + 1. */
  ghost predicate DifferAt(a: string, b: string, i: nat) {
    && |a| == |b| && a != b
    && forall k | 0 <= k < |a| && k != i && k != i + 1 :: a[k] == b[k]
  }

  lemma ChangedBodyChangesChecksum(a: string, b: string, i: nat)
    requires IsAscii(a) && IsAscii(b) && DifferAt(a, b, i)
    ensures Checksum(a) != Checksum(b)
  {
    assert exists k :: 0 <= k < |a| && a[k] != b[k];
    if i + 1 < |a| {
      assert a == a[..i] + [a[i], a[i + 1]] + a[i + 2..];
      assert b == a[..i] + [b[i], b[i + 1]] + a[i + 2..];
      ChecksumDetectsPair(a[..i], a[i], a[i + 1], b[i], b[i + 1], a[i + 2..]);
    } else {
      assert a == a[..i] + [a[i]] + "" && b == a[..i] + [b[i]] + "";
      ChecksumDetectsOne(a[..i], a[i], b[i], "");
    }
  }

  /** A payload that verifies stops verifying when one character, or two neighbouring ones, of its
      body change to other ASCII characters, whatever the length of the body. */
  lemma TamperedBodyFails(body: string, tampered: string, crc: string, i: nat)
    requires |crc| == 4 && VerifyCrc(body + crc) == Some(true)
    requires IsAscii(tampered) && DifferAt(body, tampered, i)
    ensures VerifyCrc(tampered + crc) == Some(false)
  {
    assert (body + crc)[..|body|] == body && (body + crc)[|body|..] == crc;
    assert (tampered + crc)[..|body|] == tampered && (tampered + crc)[|body|..] == crc;
    ChangedBodyChangesChecksum(body, tampered, i);
  }

  /** So does any change of the checksum itself. */
  lemma TamperedChecksumFails(body: string, crc: string, tampered: string)
    requires |crc| == 4 && |tampered| == 4 && tampered != crc
    requires VerifyCrc(body + crc) == Some(true)
    ensures VerifyCrc(body + tampered) == Some(false)
  {
    assert (body + crc)[..|body|] == body && (body + crc)[|body|..] == crc;
    assert (body + tampered)[..|body|] == body && (body + tampered)[|body|..] == tampered;
  }
}
