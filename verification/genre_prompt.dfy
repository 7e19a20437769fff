/**
 * The style prompt typed in custom mode (`create_custom_genre_prompt`):
 * the vibe, the first genre and the second genre, each followed by a space,
 * skipping empty values, the literal "none", and a second genre equal to the
 * first up to letter case. Absent values are `None`.
 */
module GenrePrompt {
  import opened Wrappers
  import opened Text

  const NONE_WORD := "none"

  /** A value that contributes a word: present, non-empty and not "none". */
  predicate Usable(o: Option<string>) { Truthy(o) && o.value != NONE_WORD }

  datatype PromptError = SecondGenreWithoutFirst

  /**
   * `create_custom_genre_prompt` (scrape_song/scrape_song.py:370-387).
   * Comparing the second genre with a missing first genre calls `.lower()`
   * on `None`, which raises; that is the error result.
   */
  function CustomGenrePrompt(first: Option<string>, second: Option<string>, vibe: Option<string>)
    : (r: Result<Option<string>, PromptError>)
    ensures r.Success? && r.value.None? <==> !Truthy(first) && !Truthy(second) && !Truthy(vibe)
    ensures r.Failure? <==> (Truthy(first) || Truthy(second) || Truthy(vibe)) && Usable(second) && first.None?
    ensures r.Success? && r.value.Some? ==> |r.value.value| == 0 || r.value.value[|r.value.value| - 1] == ' '
  {
    if !Truthy(first) && !Truthy(second) && !Truthy(vibe) then Success(None)
    else
      var withVibe := if Usable(vibe) then vibe.value + " " else "";
      var withFirst := withVibe + (if Usable(first) then first.value + " " else "");
      if Usable(second) then
        if first.None? then Failure(SecondGenreWithoutFirst)
        else if Lower(second.value) != Lower(first.value) then Success(Some(withFirst + second.value + " "))
        else Success(Some(withFirst))
      else Success(Some(withFirst))
  }

  /** The words a prompt is made of, in order. */
  function Words(first: Option<string>, second: Option<string>, vibe: Option<string>): seq<string>
    requires first.Some?
  {
    (if Usable(vibe) then [vibe.value] else [])
    + (if Usable(first) then [first.value] else [])
    + (if Usable(second) && !EqualsIgnoreCase(second.value, first.value) then [second.value] else [])
  }

  /** Each word followed by one space. */
  function Spaced(words: seq<string>): string
    decreases |words|
  {
    if words == [] then "" else Spaced(words[..|words| - 1]) + words[|words| - 1] + " "
  }

  predicate NoSpace(s: string) { forall k :: 0 <= k < |s| ==> s[k] != ' ' }

  /** The prompt is its words, each followed by a space. */
  lemma PromptIsSpacedWords(first: Option<string>, second: Option<string>, vibe: Option<string>)
    requires first.Some?
    requires Truthy(first) || Truthy(second) || Truthy(vibe)
    ensures CustomGenrePrompt(first, second, vibe) == Success(Some(Spaced(Words(first, second, vibe))))
  {
    var v := if Usable(vibe) then [vibe.value] else [];
    var f := if Usable(first) then [first.value] else [];
    var s := if Usable(second) && !EqualsIgnoreCase(second.value, first.value) then [second.value] else [];
    assert Words(first, second, vibe) == v + f + s;
    SpacedOne(v);
    SpacedAppend(v, f);
    SpacedAppend(v + f, s);
    PromptPieces(first, second, vibe);
  }

  lemma PromptPieces(first: Option<string>, second: Option<string>, vibe: Option<string>)
    requires first.Some?
    requires Truthy(first) || Truthy(second) || Truthy(vibe)
    ensures var withVibe := if Usable(vibe) then vibe.value + " " else "";
      var withFirst := withVibe + (if Usable(first) then first.value + " " else "");
      CustomGenrePrompt(first, second, vibe)
        == Success(Some(withFirst + (if Usable(second) && !EqualsIgnoreCase(second.value, first.value)
                                     then second.value + " " else "")))
  {
    var withVibe := if Usable(vibe) then vibe.value + " " else "";
    var withFirst := withVibe + (if Usable(first) then first.value + " " else "");
    assert withFirst + "" == withFirst;
    if Usable(second) {
      assert withFirst + second.value + " " == withFirst + (second.value + " ");
    }
  }

  lemma SpacedOne(w: seq<string>)
    requires |w| <= 1
    ensures Spaced(w) == if w == [] then "" else w[0] + " "
  {
    if w != [] {
      assert w[..0] == [];
    }
  }

  lemma SpacedAppend(a: seq<string>, b: seq<string>)
    requires |b| <= 1
    ensures Spaced(a + b) == Spaced(a) + (if b == [] then "" else b[0] + " ")
  {
    if b == [] {
      assert a + b == a;
    } else {
      assert (a + b)[..|a + b| - 1] == a;
    }
  }

  /** Splitting a prompt of space-free words at spaces gives the words back. */
  lemma {:induction false} SpacedSplit(words: seq<string>)
    requires forall k :: 0 <= k < |words| ==> NoSpace(words[k])
    ensures Split(Spaced(words), ' ') == words + [""]
    decreases |words|
  {
    if words == [] {
      assert Spaced(words) == "";
    } else {
      var init := words[..|words| - 1];
      var last := words[|words| - 1];
      SpacedSplit(init);
      SpacedSplitPush(Spaced(init), init, last);
      assert init + [last] == words;
    }
  }

  lemma {:induction false} SpacedSplitPush(s: string, ws: seq<string>, w: string)
    requires Split(s, ' ') == ws + [""]
    requires NoSpace(w)
    ensures Split(s + w + " ", ' ') == ws + [w] + [""]
    decreases |s|, 1
  {
    if |s| == 0 {
      assert s + w + " " == w + [' '] + "";
      SplitField(w, ' ', "");
      assert |ws| == 0;
    } else if s[0] == ' ' {
      PushAfterSpace(s, ws, w);
    } else {
      PushAfterChar(s, ws, w);
    }
  }

  /** The push step when the prompt so far starts with a space. */
  lemma {:induction false} PushAfterSpace(s: string, ws: seq<string>, w: string)
    requires |s| > 0 && s[0] == ' '
    requires Split(s, ' ') == ws + [""]
    requires NoSpace(w)
    ensures Split(s + w + " ", ' ') == ws + [w] + [""]
    decreases |s|, 0
  {
    var t, rest := s + w + " ", Split(s[1..], ' ');
    assert t[1..] == s[1..] + w + " ";
    assert t[0] == ' ';
    assert [""] + rest == ws + [""];
    HeadOfSplit("", rest, ws);
    SpacedSplitPush(s[1..], ws[1..], w);
    assert ws == [""] + ws[1..];
  }

  /** The push step when the prompt so far starts with a word character. */
  lemma {:induction false} PushAfterChar(s: string, ws: seq<string>, w: string)
    requires |s| > 0 && s[0] != ' '
    requires Split(s, ' ') == ws + [""]
    requires NoSpace(w)
    ensures Split(s + w + " ", ' ') == ws + [w] + [""]
    decreases |s|, 0
  {
    var t, rest := s + w + " ", Split(s[1..], ' ');
    assert t[1..] == s[1..] + w + " ";
    assert t[0] == s[0];
    var head := [s[0]] + rest[0];
    assert [head] + rest[1..] == ws + [""];
    NonEmptyHeadHasTail(head, rest[1..], ws);
    HeadOfSplit(head, rest[1..], ws);
    var ws' := [rest[0]] + ws[1..];
    assert rest == [rest[0]] + rest[1..];
    SpacedSplitPush(s[1..], ws', w);
    var rest2 := Split(s[1..] + w + " ", ' ');
    assert Split(t, ' ') == [[s[0]] + rest2[0]] + rest2[1..];
    assert ws == [head] + ws[1..];
  }

  lemma NonEmptyHeadHasTail(head: string, tail: seq<string>, ws: seq<string>)
    requires [head] + tail == ws + [""]
    requires |head| >= 1
    ensures |tail| >= 1
  {
    assert |ws| == |tail|;
    assert ([head] + tail)[|tail|] == (ws + [""])[|ws|] == "";
  }

  lemma HeadOfSplit(x: string, rest: seq<string>, ws: seq<string>)
    requires [x] + rest == ws + [""]
    requires |rest| >= 1
    ensures |ws| >= 1 && ws[0] == x && rest == ws[1..] + [""]
  {
    assert |ws| == |rest|;
    assert ws[0] == (ws + [""])[0];
    assert rest == ([x] + rest)[1..];
    assert (ws + [""])[1..] == ws[1..] + [""];
  }

  /** A second genre equal to the first up to case adds nothing. */
  lemma RepeatedGenreIgnored(first: string, second: string, vibe: Option<string>)
    requires first != "" && EqualsIgnoreCase(second, first)
    ensures CustomGenrePrompt(Some(first), Some(second), vibe) == CustomGenrePrompt(Some(first), None, vibe)
  {
  }

  /** "none" counts as a value for the empty check but contributes no word. */
  lemma NoneWordYieldsEmptyPrompt()
    ensures CustomGenrePrompt(Some("none"), None, Some("none")) == Success(Some(""))
  {
    assert Usable(Some("none")) == false;
  }
}
