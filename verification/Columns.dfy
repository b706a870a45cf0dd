/** What the text columns of the database make of a text. */
module Columns {
  import opened Entities

  const REFERENCE_WIDTH := 35
  const KEY_WIDTH := 255
  const CURRENCY_WIDTH := 3
  const ENTRY_TYPE_WIDTH := 30

  /** No text of the database can hold the character U+0000. */
  predicate IsText(text: string) {
    forall i | 0 <= i < |text| :: text[i] != '\0'
  }

  predicate FitsWidth(text: string, width: nat) {
    |text| <= width && IsText(text)
  }

  /** VARCHAR(width) cuts off blanks beyond its width and refuses anything else there. */
  function StoredText(text: string, width: nat): (r: Option<string>)
    ensures r.Some? ==> FitsWidth(r.value, width) && r.value <= text
    ensures FitsWidth(text, width) ==> r == Some(text)
  {
    if !IsText(text) then None
    else if |text| <= width then Some(text)
    else if forall i | width <= i < |text| :: text[i] == ' ' then Some(text[..width])
    else None
  }
}
