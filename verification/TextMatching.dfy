/** `_references` and `_mentions`: an invoice is mentioned when one of its names occurs in one of the texts
    of a bank entry, up to case. */
module TextMatching {
  import opened Records
  import opened Crossings

  predicate Contains(text: string, needle: string)
  {
    exists i :: 0 <= i <= |text| && needle <= text[i..]
  }

  /** The texts that are there, folded. */
  function References(fold: string -> string, b: Bank): set<string>
  {
    set text | text in b.texts && text != "" :: fold(text)
  }

  function Needles(fold: string -> string, v: Invoice): set<string>
  {
    {fold(v.id), fold(v.number)}
    + (if v.paymentReference.Some? && v.paymentReference.value != "" then {fold(v.paymentReference.value)} else {})
  }

  predicate Mentions(fold: string -> string, b: Bank, v: Invoice)
  {
    exists needle, text :: needle in Needles(fold, v) && text in References(fold, b) && Contains(text, needle)
  }

  /** The engine's rules, with `casefold` left as any function on strings. */
  function EngineRules(amountTolerance: int, dateToleranceDays: int, maximumGroupSize: nat, fold: string -> string): Rules
  {
    Rules(amountTolerance, dateToleranceDays, maximumGroupSize, (b, v) => Mentions(fold, b, v))
  }

  /** Some text of the entry contains this name once both are folded. */
  ghost predicate Quotes(fold: string -> string, b: Bank, name: string)
  {
    exists text, before, after :: text in b.texts && text != "" && fold(text) == before + fold(name) + after
  }

  lemma ContainsIsInfix(text: string, needle: string)
    ensures Contains(text, needle) <==> exists before, after :: text == before + needle + after
  {
    if Contains(text, needle) {
      var i :| 0 <= i <= |text| && needle <= text[i..];
      assert text == text[..i] + needle + text[i..][|needle|..];
    }
    if before, after :| text == before + needle + after {
      assert text[|before|..] == needle + after;
    }
  }

  lemma QuotesExactly(fold: string -> string, b: Bank, name: string)
    ensures Quotes(fold, b, name) <==> exists text :: text in References(fold, b) && Contains(text, fold(name))
  {
    if Quotes(fold, b, name) {
      var text, before, after :| text in b.texts && text != "" && fold(text) == before + fold(name) + after;
      ContainsIsInfix(fold(text), fold(name));
      assert fold(text) in References(fold, b);
    }
    if folded :| folded in References(fold, b) && Contains(folded, fold(name)) {
      var text :| text in b.texts && text != "" && fold(text) == folded;
      ContainsIsInfix(folded, fold(name));
    }
  }

  /** An invoice is mentioned exactly when the entry quotes its id, its number or its payment reference, an
      empty payment reference counting as none; an entry without texts mentions nothing. */
  lemma MentionsExactly(fold: string -> string, b: Bank, v: Invoice)
    ensures Mentions(fold, b, v) <==>
      || Quotes(fold, b, v.id) || Quotes(fold, b, v.number)
      || (v.paymentReference.Some? && v.paymentReference.value != "" && Quotes(fold, b, v.paymentReference.value))
    ensures b.texts == [] ==> !Mentions(fold, b, v)
  {
    QuotesExactly(fold, b, v.id);
    QuotesExactly(fold, b, v.number);
    if v.paymentReference.Some? {
      QuotesExactly(fold, b, v.paymentReference.value);
    }
  }

  /** The engine's own text matching finds word-for-word quotes, so the crossings are its own. */
  lemma EngineFindsQuotes(amountTolerance: int, dateToleranceDays: int, maximumGroupSize: nat, fold: string -> string)
    requires dateToleranceDays >= 0
    ensures FindsQuotes(EngineRules(amountTolerance, dateToleranceDays, maximumGroupSize, fold))
  {
    forall b: Bank, v: Invoice | v.number in b.texts && v.number != "" ensures Mentions(fold, b, v) {
      assert fold(v.number) in References(fold, b) && fold(v.number) in Needles(fold, v);
      assert fold(v.number) <= fold(v.number)[0..];
    }
  }
}
