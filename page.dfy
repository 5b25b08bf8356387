/**
 * Page text as the checkers see it after HTML-to-text extraction, and the
 * substring test both checkers use to classify it.
 */
module Page {
  /** Text on the product page when it cannot be ordered. */
  const NotAvailableMarker: string := "Derzeit nicht verfügbar"
  /** Text on the page the shop serves when it suspects a bot. */
  const BotDetectionMarker: string := "To discuss automated access to Amazon data"

  /** Python's `pat in text` on strings, computed by trying every start position. */
  function Contains(text: string, pat: string): bool
    decreases |text|
  {
    pat <= text || (text != [] && Contains(text[1..], pat))
  }

  /** `pat` occurs in `text` starting at position `i`. */
  ghost predicate OccursAt(text: string, pat: string, i: int)
  {
    0 <= i && i + |pat| <= |text| && text[i..i + |pat|] == pat
  }

  /** Reference definition of substring containment. */
  ghost predicate Occurs(text: string, pat: string)
  {
    exists i :: OccursAt(text, pat, i)
  }

  lemma {:induction false} ContainsIffOccurs(text: string, pat: string)
    ensures Contains(text, pat) <==> Occurs(text, pat)
    decreases |text|
  {
    if pat <= text {
      assert OccursAt(text, pat, 0);
    } else if text == [] {
      forall i | OccursAt(text, pat, i) ensures false {
      }
    } else {
      var tail := text[1..];
      ContainsIffOccurs(tail, pat);
      if Contains(tail, pat) {
        var i :| OccursAt(tail, pat, i);
        assert text[i + 1..i + 1 + |pat|] == tail[i..i + |pat|];
        assert OccursAt(text, pat, i + 1);
      }
      if Occurs(text, pat) {
        var i :| OccursAt(text, pat, i);
        if i == 0 {
          assert false;
        }
        assert tail[i - 1..i - 1 + |pat|] == text[i..i + |pat|];
        assert OccursAt(tail, pat, i - 1);
      }
    }
  }
}
