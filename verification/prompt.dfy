/**
  Turning a path piece into the text sent to an image backend
  (weatherModule.js lines 41, 44, 65 and 80): every '+' becomes a space, by
  `replace(/\+/g, ' ')`, and the result is put after a fixed scene-setting
  phrase. Nothing else is decoded: "%20" stays the three characters '%', '2'
  and '0'.
 */
module Prompts {

  /** The phrase both backends receive in front of the user's words. */
  const ScenePrefix: string := "An atmospheric scene showcasing the following: "

  /**
    The reference relation: `r` is `s` with each '+' read as a space and every
    other character kept, position by position.
   */
  predicate PlusAsSpace(s: string, r: string)
  {
    && |r| == |s|
    && forall i :: 0 <= i < |s| ==> r[i] == (if s[i] == '+' then ' ' else s[i])
  }

  /** The global replacement of '+' by ' '. */
  function ReplacePlus(s: string): (r: string)
    ensures PlusAsSpace(s, r)
    ensures '+' !in r
    decreases |s|
  {
    if |s| == 0 then ""
    else [if s[0] == '+' then ' ' else s[0]] + ReplacePlus(s[1..])
  }

  /** `prompt` is the scene phrase followed by `piece` with each '+' read as a space. */
  predicate IsBackendPrompt(piece: string, prompt: string)
  {
    && |prompt| == |ScenePrefix| + |piece|
    && prompt[..|ScenePrefix|] == ScenePrefix
    && PlusAsSpace(piece, prompt[|ScenePrefix|..])
  }

  /** The prompt a backend receives for the path piece `piece`. */
  function BackendPrompt(piece: string): (r: string)
    ensures IsBackendPrompt(piece, r)
  {
    ScenePrefix + ReplacePlus(piece)
  }

  /** Exactly one prompt fits a piece, so the relation pins the backend's input down. */
  lemma BackendPromptUnique(piece: string, prompt: string)
    ensures IsBackendPrompt(piece, prompt) <==> prompt == BackendPrompt(piece)
  {
  }

  /** `ReplacePlus` is the only function meeting the reference relation. */
  lemma PlusAsSpaceUnique(s: string, r: string)
    ensures PlusAsSpace(s, r) <==> r == ReplacePlus(s)
  {
  }

  /** A piece without '+' is passed through untouched, and only such a piece. */
  lemma ReplacePlusIdentity(s: string)
    ensures ReplacePlus(s) == s <==> '+' !in s
  {
  }

  /** Replacing twice is replacing once. */
  lemma ReplacePlusIdempotent(s: string)
    ensures ReplacePlus(ReplacePlus(s)) == ReplacePlus(s)
  {
  }

  /** The prompt is empty exactly when the piece is; a piece of only '+' is all spaces. */
  lemma ReplacePlusEmpty(s: string)
    ensures ReplacePlus(s) == "" <==> s == ""
    ensures (forall i :: 0 <= i < |s| ==> s[i] == '+') ==>
              forall i :: 0 <= i < |s| ==> ReplacePlus(s)[i] == ' '
  {
  }

  /** Percent escapes are not decoded: a '%' stays a '%' at the same place. */
  lemma NoPercentDecoding(s: string)
    ensures forall i :: 0 <= i < |s| && s[i] == '%' ==> ReplacePlus(s)[i] == '%'
  {
  }

  /** "a%20b+c" becomes "a%20b c": the escape survives, the '+' does not. */
  lemma PercentExample()
    ensures ReplacePlus("a%20b+c") == "a%20b c"
  {
  }
}
