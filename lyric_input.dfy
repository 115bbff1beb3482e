/** The comma-separated lyric entry box (src/components/LyricInput.jsx). */
module LyricInput {
  import opened TextUtil

  /** `handleParse`: blank text is ignored (`None`: `onParse` is not
      called); otherwise the text is split on commas and the blank pieces
      are dropped. Pieces are passed on untrimmed. */
  function HandleParse(text: string): (r: Option<seq<string>>)
    ensures r.None? <==> IsBlank(text)
    ensures r.Some? ==> |r.value| <= Count(text, ',') + 1
    ensures r.Some? ==> forall i :: 0 <= i < |r.value| ==> !IsBlank(r.value[i]) && ',' !in r.value[i]
  {
    TrimEmptyIffBlank(text);
    if Trim(text) == "" then None
    else
      var pieces := Split(text, ',');
      DropBlankKeeps(pieces);
      Some(DropBlank(pieces))
  }

  /** The pieces are the non-blank comma-separated fields of the text, in
      their order, each as written. */
  lemma HandleParsePieces(text: string)
    requires !IsBlank(text)
    ensures IsSubsequence(HandleParse(text).value, Split(text, ','))
    ensures forall p :: p in Split(text, ',') && !IsBlank(p) ==> p in HandleParse(text).value
    ensures forall p :: multiset(HandleParse(text).value)[p] == if IsBlank(p) then 0 else multiset(Split(text, ','))[p]
  {
    DropBlankKeeps(Split(text, ','));
  }

  /** Text without commas is passed on whole, untrimmed. */
  lemma SingleLine(text: string)
    requires !IsBlank(text) && ',' !in text
    ensures HandleParse(text) == Some([text])
  {
    SplitNoSeparator(text, ',');
  }

  /** A lone comma is not blank, so `onParse` is called with no lines. */
  lemma CommaOnly()
    ensures HandleParse(",") == Some([])
  {
    var text := ",";
    assert !IsBlank(text) by { assert !IsWhitespace(text[0]); }
    TrimEmptyIffBlank(text);
    assert HandleParse(text) == Some(DropBlank(Split(text, ',')));
    assert "" + [','] + "" == text;
    SplitFields("", "", ',');
    var pieces: seq<string> := ["", ""];
    assert IsBlank(pieces[0]) && pieces[1..] == [""];
    assert DropBlank(pieces) == DropBlank([""]);
    assert IsBlank([""][0]) && [""][1..] == [];
  }

  /** Spaces after a comma stay in the next piece. */
  lemma PiecesUntrimmed()
    ensures HandleParse("a, b") == Some(["a", " b"])
  {
    var text := "a, b";
    assert "a" + [','] + " b" == text;
    SplitFields("a", " b", ',');
    assert !IsBlank(text) by { assert !IsWhitespace(text[0]); }
    assert !IsBlank("a") by { assert !IsWhitespace("a"[0]); }
    assert !IsBlank(" b") by { assert !IsWhitespace(" b"[1]); }
    assert DropBlank([" b"]) == [" b"];
    assert DropBlank(["a", " b"]) == ["a"] + DropBlank([" b"]);
  }
}
