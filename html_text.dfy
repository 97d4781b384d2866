/** The plain-text alternative of a message: the regular expression `<[^>]*>`
    replaced by nothing. A match starts at a '<' and runs to the first '>'
    after it (`[^>]*` cannot step over a '>', but it does step over a second
    '<'); a '<' with no '>' after it starts no match and stays in the text.
    Matches are taken leftmost first and never overlap. */
module HtmlText {

  /** What is left of `s` after its first '>' (nothing when it has none). */
  function AfterClose(s: string): (r: string)
    ensures |r| <= |s| && r == s[|s| - |r|..]
    ensures '>' in s ==> |r| < |s|
  {
    if s == [] then []
    else if s[0] == '>' then s[1..]
    else AfterClose(s[1..])
  }

  /** Regex.Replace(html, "<[^>]*>", "") */
  function StripTags(html: string): (text: string)
    ensures |text| <= |html|
    decreases |html|
  {
    if html == [] then []
    else if html[0] == '<' && '>' in html[1..] then StripTags(AfterClose(html[1..]))
    else [html[0]] + StripTags(html[1..])
  }

  /** No '<' is followed, anywhere later, by a '>': the pattern has no match. */
  predicate TagFree(s: string) {
    forall i, j :: 0 <= i < j < |s| && s[i] == '<' ==> s[j] != '>'
  }

  /** Stripping keeps characters and never invents any. */
  lemma {:induction false} StripTagsKeepsCharacters(html: string, c: char)
    ensures c in StripTags(html) ==> c in html
    decreases |html|
  {
    if html == [] {
    } else if html[0] == '<' && '>' in html[1..] {
      var rest := AfterClose(html[1..]);
      StripTagsKeepsCharacters(rest, c);
      assert c in rest ==> c in html[1..];
    } else {
      StripTagsKeepsCharacters(html[1..], c);
    }
  }

  /** No tag survives: in the plain text no '<' is followed later by '>'. */
  lemma {:induction false} StripTagsIsTagFree(html: string)
    ensures TagFree(StripTags(html))
    decreases |html|
  {
    if html == [] {
    } else if html[0] == '<' && '>' in html[1..] {
      StripTagsIsTagFree(AfterClose(html[1..]));
    } else {
      var rest := StripTags(html[1..]);
      StripTagsIsTagFree(html[1..]);
      if html[0] == '<' {
        StripTagsKeepsCharacters(html[1..], '>');
        assert '>' !in rest;
      }
      var text := [html[0]] + rest;
      forall i, j | 0 <= i < j < |text| && text[i] == '<'
        ensures text[j] != '>'
      {
        if i == 0 {
          assert text[j] == rest[j - 1];
        } else {
          assert text[i] == rest[i - 1] && text[j] == rest[j - 1];
        }
      }
    }
  }

  /** A tag-free text stays tag-free without its first character. */
  lemma TagFreeTail(s: string)
    requires s != [] && TagFree(s)
    ensures TagFree(s[1..])
  {
    var tail := s[1..];
    forall i, j | 0 <= i < j < |tail| && tail[i] == '<' ensures tail[j] != '>' {
      assert tail[i] == s[i + 1] && tail[j] == s[j + 1];
    }
  }

  /** In a tag-free text an opening '<' has no '>' anywhere after it. */
  lemma TagFreeOpening(s: string)
    requires s != [] && TagFree(s) && s[0] == '<'
    ensures '>' !in s[1..]
  {
    var tail := s[1..];
    forall j | 0 <= j < |tail| ensures tail[j] != '>' {
      assert tail[j] == s[j + 1];
    }
  }

  /** Text with no tag in it passes through unchanged. */
  lemma {:induction false} StripTagsKeepsTagFree(html: string)
    requires TagFree(html)
    ensures StripTags(html) == html
    decreases |html|
  {
    if html != [] {
      if html[0] == '<' {
        TagFreeOpening(html);
      }
      TagFreeTail(html);
      StripTagsKeepsTagFree(html[1..]);
      assert html == [html[0]] + html[1..];
    }
  }

  /** Stripping leaves a text unchanged exactly when that text holds no tag. */
  lemma StripTagsFixedPoint(html: string)
    ensures StripTags(html) == html <==> TagFree(html)
  {
    if TagFree(html) {
      StripTagsKeepsTagFree(html);
    } else {
      StripTagsIsTagFree(html);
    }
  }

  /** Stripping twice gives what stripping once gives. */
  lemma StripTagsIdempotent(html: string)
    ensures StripTags(StripTags(html)) == StripTags(html)
  {
    StripTagsIsTagFree(html);
    StripTagsKeepsTagFree(StripTags(html));
  }

  /** A text without '<' is its own plain text. */
  lemma StripTagsWithoutOpening(html: string)
    requires '<' !in html
    ensures StripTags(html) == html
  {
    assert forall i :: 0 <= i < |html| ==> html[i] != '<';
    assert TagFree(html);
    StripTagsKeepsTagFree(html);
  }

  /** After a run with no '>' and then a '>', what is left is what follows. */
  lemma {:induction false} AfterCloseSkipsRun(run: string, rest: string)
    requires '>' !in run
    ensures AfterClose(run + ">" + rest) == rest
    decreases |run|
  {
    if run == [] {
      assert run + ">" + rest == ['>'] + rest;
    } else {
      AfterCloseSkipsRun(run[1..], rest);
      assert (run + ">" + rest)[1..] == run[1..] + ">" + rest;
    }
  }

  /** A complete tag at the front disappears. */
  lemma StripTagsDropsTag(name: string, rest: string)
    requires '>' !in name
    ensures StripTags("<" + name + ">" + rest) == StripTags(rest)
  {
    var html := "<" + name + ">" + rest;
    assert html[1..] == name + ">" + rest;
    assert html[1..][|name|] == '>';
    AfterCloseSkipsRun(name, rest);
  }

  /** Text without '<' at the front is kept as it is. */
  lemma {:induction false} StripTagsKeepsText(text: string, rest: string)
    requires '<' !in text
    ensures StripTags(text + rest) == text + StripTags(rest)
    decreases |text|
  {
    if text != [] {
      StripTagsKeepsText(text[1..], rest);
      assert (text + rest)[1..] == text[1..] + rest;
      assert text == [text[0]] + text[1..];
    } else {
      assert text + rest == rest;
    }
  }

  /** An element holding plain text, such as "<p>Hi</p>", loses its two tags and nothing else. */
  lemma StripTagsElement(open: string, text: string, close: string)
    requires '>' !in open && '>' !in close && '<' !in text
    ensures StripTags("<" + open + ">" + text + "<" + close + ">") == text
  {
    var closing := "<" + close + ">";
    var rest := text + closing;
    assert "<" + open + ">" + text + "<" + close + ">" == "<" + open + ">" + rest;
    calc {
      StripTags("<" + open + ">" + rest);
      { StripTagsDropsTag(open, rest); }
      StripTags(rest);
      { StripTagsKeepsText(text, closing); }
      text + StripTags(closing);
      { assert closing == closing + [];
        StripTagsDropsTag(close, []); }
      text + StripTags([]);
      { assert text + [] == text; }
      text;
    }
  }
}
