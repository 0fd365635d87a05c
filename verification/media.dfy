/** Whether a reply comes with a GIF: an inline `@gif` tag in the user's
    text forces one and is cut out of the text; otherwise a uniform draw
    below 0.1 asks for one. */
module Media {
  import opened PyStr

  const Tag: string := "@gif"

  /** The chance of an unrequested GIF. */
  const GifProbability: real := 0.1

  /** Whether to send a GIF, and the user text the reply is generated from. */
  datatype MediaChoice = MediaChoice(media: bool, text: string)

  /** Lines 219-223. `draw` is the value of `random.uniform(0, 1)`. A GIF
      is sent exactly when the tag occurs or the draw is below 0.1; the
      text changes exactly when the tag occurs, and then it is the text
      with every occurrence removed and the ends stripped. */
  function DecideMedia(text: string, draw: real): (c: MediaChoice)
    ensures c.media <==> Contains(text, Tag) || draw < GifProbability
    ensures c.text == text <==> !Contains(text, Tag)
    ensures Contains(text, Tag) ==> c.text == Strip(RemoveAll(text, Tag)) && |c.text| < |text|
  {
    RemoveAllFixedIff(text, Tag);
    if Contains(text, Tag) then
      MediaChoice(true, Strip(RemoveAll(text, Tag)))
    else
      MediaChoice(draw < GifProbability, text)
  }

  /** An explicit tag decides the matter: two draws give the same choice. */
  lemma TagIgnoresDraw(text: string, draw1: real, draw2: real)
    requires Contains(text, Tag)
    ensures DecideMedia(text, draw1) == DecideMedia(text, draw2)
    ensures DecideMedia(text, draw1).media
  {
  }

  /** A single left-to-right pass over `"@@gifgif"` leaves `"@gif"`. */
  lemma RemoveAllExample()
    ensures RemoveAll("@@gifgif", Tag) == "@gif"
  {
    var s := "@@gifgif";
    assert s[..4] != Tag by {
      assert s[1] != Tag[1];
    }
    assert s[1..] == "@gifgif";
    assert "@gifgif"[..4] == Tag;
    assert "@gifgif"[4..] == "gif";
    assert RemoveAll("gif", Tag) == "gif";
  }

  /** Removal is a single pass, so a tag can survive it: `"@@gifgif"`
      asks for a GIF and becomes `"@gif"`, which still holds the tag. */
  lemma RemovalNotIdempotent()
    ensures DecideMedia("@@gifgif", 0.5).media
    ensures DecideMedia("@@gifgif", 0.5).text == "@gif"
    ensures Contains(DecideMedia("@@gifgif", 0.5).text, Tag)
  {
    assert "@gifgif"[..4] == Tag;
    assert Contains("@gifgif", Tag);
    assert Contains("@@gifgif", Tag);
    RemoveAllExample();
    assert TrimStart("@gif") == "@gif" by {
      assert !IsSpace("@gif"[0]);
    }
    assert TrimEnd("@gif") == "@gif" by {
      assert !IsSpace("@gif"[3]);
    }
    assert "@gif"[..4] == Tag;
  }
}
