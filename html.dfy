/**
 * `_strip_html`: each markup tag becomes a space, each run of whitespace becomes one space,
 * and the ends are trimmed. The two regular-expression substitutions are written out as
 * left-to-right scans over characters.
 */
module Html {
  import opened Text

  /**
   * A match of `<[^>]+>` starts at index `i`: a `<`, at least one character other than `>`,
   * and a later `>` (the match ends at the first one).
   */
  predicate TagAt(s: string, i: int) {
    0 <= i && i + 1 < |s| && s[i] == '<' && s[i + 1] != '>' && '>' in s[i + 2..]
  }

  /** No tag is left anywhere in `s`. */
  ghost predicate NoTag(s: string) {
    forall i :: !TagAt(s, i)
  }

  /** No two whitespace characters are adjacent. */
  predicate NoDoubleSpace(s: string) {
    forall i :: 0 <= i < |s| - 1 ==> !(IsSpace(s[i]) && IsSpace(s[i + 1]))
  }

  /** Every whitespace character is a plain space. */
  predicate PlainSpaces(s: string) {
    forall i :: 0 <= i < |s| && IsSpace(s[i]) ==> s[i] == ' '
  }

  /** Index of the first `c` in `s`. */
  function IndexOf(s: string, c: char): (j: nat)
    requires c in s
    ensures j < |s| && s[j] == c && c !in s[..j]
  {
    if s[0] == c then 0 else 1 + IndexOf(s[1..], c)
  }

  /** `re.sub(r"<[^>]+>", " ", s)`: every tag, found scanning from the left, becomes one space. */
  function ReplaceTags(s: string): string
    decreases |s|
  {
    if s == [] then []
    else if TagAt(s, 0) then " " + ReplaceTags(s[IndexOf(s, '>') + 1..])
    else [s[0]] + ReplaceTags(s[1..])
  }

  /** `re.sub(r"\s+", " ", s)`: every run of whitespace becomes one space. */
  function CollapseSpaces(s: string): string
    decreases |s|
  {
    if s == [] then []
    else if IsSpace(s[0]) then " " + CollapseSpaces(TrimStart(s[1..]))
    else [s[0]] + CollapseSpaces(s[1..])
  }

  /** `_strip_html(html)`: empty for empty input, else the tag-free text with its whitespace collapsed and trimmed. */
  function StripHtml(html: string): string {
    if html == [] then [] else Trim(CollapseSpaces(ReplaceTags(html)))
  }

  /**
   * What `_strip_html` promises: empty output for empty input; otherwise no whitespace at
   * either end, only plain spaces and never two in a row, and no tag left anywhere.
   */
  lemma StripHtmlShape(html: string)
    ensures html == [] ==> StripHtml(html) == []
    ensures var r := StripHtml(html); r != [] ==> !IsSpace(r[0]) && !IsSpace(r[|r| - 1])
    ensures NoDoubleSpace(StripHtml(html)) && PlainSpaces(StripHtml(html))
    ensures NoTag(StripHtml(html))
  {
    if html != [] {
      var collapsed := CollapseSpaces(ReplaceTags(html));
      var r := Trim(collapsed);
      var a :| Surrounds(collapsed, r, a);
      SliceOfCollapse(ReplaceTags(html), collapsed, r, a);
      ReplaceTagsLeavesNoTag(html);
    }
  }

  /** A slice of the collapse of `text` has the collapse's spacing, and each of its tags comes from a tag of `text`. */
  lemma SliceOfCollapse(text: string, c: string, r: string, a: int)
    requires c == CollapseSpaces(text)
    requires 0 <= a <= a + |r| <= |c| && r == c[a..a + |r|]
    ensures NoDoubleSpace(r) && PlainSpaces(r)
    ensures forall i :: TagAt(r, i) ==> exists j :: TagAt(text, j)
  {
    SliceTagsFromText(text, c, r, a);
    CollapseSpacing(text);
    SliceSpacing(c, a, a + |r|);
  }

  /** Each tag of a slice of the collapse of `text` comes from a tag of `text`. */
  lemma SliceTagsFromText(text: string, c: string, r: string, a: int)
    requires c == CollapseSpaces(text)
    requires 0 <= a <= a + |r| <= |c| && r == c[a..a + |r|]
    ensures forall i :: TagAt(r, i) ==> exists j :: TagAt(text, j)
  {
    forall i | TagAt(r, i) ensures exists j :: TagAt(text, j) {
      SliceTag(c, a, a + |r|, i);
      CollapseTagFromInput(text, a + i);
    }
  }

  // ---------------------------------------------------------------------------
  // Lemmas about the two substitutions
  // ---------------------------------------------------------------------------

  /** A tag one character further into `[c] + u` is a tag of `u`. */
  lemma TagAtShift(c: char, u: string, i: int)
    requires 0 <= i
    ensures TagAt([c] + u, i + 1) <==> TagAt(u, i)
  {
    if i + 2 < |u| + 1 {
      assert ([c] + u)[i + 3..] == u[i + 2..];
    }
  }

  /** A character `c` of `u[a..]` is a character of `u[b..]` for every `b <= a`. */
  lemma InLaterSuffix(u: string, c: char, a: int, b: int)
    requires 0 <= b <= a <= |u|
    requires c in u[a..]
    ensures c in u[b..]
  {
    var k :| a <= k < |u| && u[k] == c;
    assert u[b..][k - b] == c;
  }

  /** A tag of a slice is a tag of the whole string. */
  lemma SliceTag(s: string, a: int, b: int, i: int)
    requires 0 <= a <= b <= |s|
    requires TagAt(s[a..b], i)
    ensures TagAt(s, a + i)
  {
    var t := s[a..b];
    var k :| i + 2 <= k < |t| && t[k] == '>';
    assert s[a + i + 2..][k - i - 2] == '>';
  }

  /** A tag of a suffix is a tag of the whole string. */
  lemma SuffixTag(s: string, k: int, j: int)
    requires 0 <= k <= |s|
    requires TagAt(s[k..], j)
    ensures TagAt(s, k + j)
  {
    assert s[k..] == s[k..|s|];
    SliceTag(s, k, |s|, j);
  }

  /** The replacement adds only spaces, so every `>` it leaves was in its input. */
  lemma {:induction false} ReplaceTagsGt(s: string)
    ensures '>' in ReplaceTags(s) ==> '>' in s
    decreases |s|
  {
    if s != [] {
      if TagAt(s, 0) {
        var j := IndexOf(s, '>');
        ReplaceTagsGt(s[j + 1..]);
        if '>' in ReplaceTags(s[j + 1..]) {
          InLaterSuffix(s, '>', j + 1, 0);
          assert s[0..] == s;
        }
      } else {
        ReplaceTagsGt(s[1..]);
        if '>' in ReplaceTags(s[1..]) {
          InLaterSuffix(s, '>', 1, 0);
          assert s[0..] == s;
        }
      }
    }
  }

  /** After `re.sub(r"<[^>]+>", " ", s)` no tag starts at index `i`. */
  lemma {:induction false} ReplaceTagsNoTagAt(s: string, i: int)
    ensures !TagAt(ReplaceTags(s), i)
    decreases |s|
  {
    if s != [] && i >= 0 {
      ReplaceTagsStep(s);
      if TagAt(s, 0) {
        var rest := s[IndexOf(s, '>') + 1..];
        if i > 0 {
          ReplaceTagsNoTagAt(rest, i - 1);
        }
        NoTagBehind(' ', ReplaceTags(rest), i);
      } else {
        if i > 0 {
          ReplaceTagsNoTagAt(s[1..], i - 1);
          NoTagBehind(s[0], ReplaceTags(s[1..]), i);
        } else {
          KeptCharStartsNoTag(s);
        }
      }
    }
  }

  /** A character in front of text with no tag at `i - 1` starts no tag at `i`, unless it is a `<` at the front. */
  lemma NoTagBehind(c: char, u: string, i: int)
    requires 0 <= i
    requires i > 0 ==> !TagAt(u, i - 1)
    requires i == 0 ==> c != '<'
    ensures !TagAt([c] + u, i)
  {
    if i > 0 {
      TagAtShift(c, u, i - 1);
    }
  }

  /** One step of the replacement: a tag at the front becomes a space, any other character is kept. */
  lemma ReplaceTagsStep(s: string)
    requires s != []
    ensures TagAt(s, 0) ==> ReplaceTags(s) == [' '] + ReplaceTags(s[IndexOf(s, '>') + 1..])
    ensures !TagAt(s, 0) ==> ReplaceTags(s) == [s[0]] + ReplaceTags(s[1..])
  {
  }

  /** A character the replacement keeps does not start a tag of the output. */
  lemma KeptCharStartsNoTag(s: string)
    requires s != [] && !TagAt(s, 0)
    ensures !TagAt([s[0]] + ReplaceTags(s[1..]), 0)
  {
    var u := ReplaceTags(s[1..]);
    if s[0] == '<' && |s| > 1 {
      // The '<' was kept: the next character is '>' or no '>' follows it.
      if s[1] == '>' {
        assert !TagAt(s[1..], 0);
        assert u == [s[1]] + ReplaceTags(s[2..]);
      } else {
        assert '>' !in s[1..];
        ReplaceTagsGt(s[1..]);
        assert ([s[0]] + u)[2..] == u[1..];
      }
    }
  }

  /** After `re.sub(r"<[^>]+>", " ", s)` no tag is left. */
  lemma ReplaceTagsLeavesNoTag(s: string)
    ensures NoTag(ReplaceTags(s))
  {
    forall i ensures !TagAt(ReplaceTags(s), i) {
      ReplaceTagsNoTagAt(s, i);
    }
  }

  /** The collapse adds only spaces, so every `>` it leaves was in its input. */
  lemma {:induction false} CollapseGt(s: string)
    ensures '>' in CollapseSpaces(s) ==> '>' in s
    decreases |s|
  {
    if s != [] {
      if IsSpace(s[0]) {
        var t := TrimStart(s[1..]);
        CollapseGt(t);
        if '>' in CollapseSpaces(t) {
          assert t == s[|s| - |t|..];
          InLaterSuffix(s, '>', |s| - |t|, 0);
          assert s[0..] == s;
        }
      } else {
        CollapseGt(s[1..]);
        if '>' in CollapseSpaces(s[1..]) {
          InLaterSuffix(s, '>', 1, 0);
          assert s[0..] == s;
        }
      }
    }
  }

  /**
   * The collapse is empty only for empty input, its first character is a space exactly when
   * the input starts with whitespace, and it has only plain spaces, never two in a row.
   */
  lemma {:induction false} CollapseSpacing(s: string)
    ensures CollapseSpaces(s) == [] <==> s == []
    ensures s != [] ==> CollapseSpaces(s)[0] == (if IsSpace(s[0]) then ' ' else s[0])
    ensures NoDoubleSpace(CollapseSpaces(s)) && PlainSpaces(CollapseSpaces(s))
    decreases |s|
  {
    if s != [] {
      var c := CollapseSpaces(s);
      if IsSpace(s[0]) {
        var t := TrimStart(s[1..]);
        CollapseSpacing(t);
        assert c == " " + CollapseSpaces(t);
      } else {
        CollapseSpacing(s[1..]);
        assert c == [s[0]] + CollapseSpaces(s[1..]);
      }
    }
  }

  /** A `>` after the first character of the collapse was after the first character of its input. */
  lemma CollapseGtAfterHead(u: string)
    requires u != []
    ensures '>' in CollapseSpaces(u)[1..] ==> '>' in u[1..]
  {
    if IsSpace(u[0]) {
      var t := TrimStart(u[1..]);
      assert CollapseSpaces(u)[1..] == CollapseSpaces(t);
      CollapseGt(t);
      if '>' in t {
        assert t == u[1..][|u[1..]| - |t|..];
        InLaterSuffix(u[1..], '>', |u[1..]| - |t|, 0);
        assert u[1..][0..] == u[1..];
      }
    } else {
      assert CollapseSpaces(u)[1..] == CollapseSpaces(u[1..]);
      CollapseGt(u[1..]);
    }
  }

  /** Collapsing whitespace cannot create a tag: every tag of the output comes from one of the input. */
  lemma {:induction false} CollapseTagFromInput(s: string, i: int)
    requires TagAt(CollapseSpaces(s), i)
    ensures exists j :: TagAt(s, j)
    decreases |s|
  {
    CollapseStep(s);
    if IsSpace(s[0]) {
      var n := LeadingSpaces(s[1..]);
      var t := TrimStart(s[1..]);
      TagBehindHead(' ', CollapseSpaces(t), i);
      CollapseTagFromInput(t, i - 1);
      assert t == s[1 + n..];
      TagInSuffix(s, 1 + n);
    } else if i > 0 {
      TagBehindHead(s[0], CollapseSpaces(s[1..]), i);
      CollapseTagFromInput(s[1..], i - 1);
      TagInSuffix(s, 1);
    } else {
      CollapseHeadTag(s);
    }
  }

  /** A tag of `[c] + u` that does not start at a non-`<` front character is a tag of `u`, one place earlier. */
  lemma TagBehindHead(c: char, u: string, i: int)
    requires TagAt([c] + u, i) && (c != '<' || i > 0)
    ensures i > 0 && TagAt(u, i - 1)
  {
    TagAtShift(c, u, i - 1);
  }

  /** A string that has a tag in one of its suffixes has a tag. */
  lemma TagInSuffix(s: string, k: int)
    requires 0 <= k <= |s| && exists j :: TagAt(s[k..], j)
    ensures exists j :: TagAt(s, j)
  {
    var j :| TagAt(s[k..], j);
    SuffixTag(s, k, j);
  }

  /** One step of the collapse: leading whitespace becomes one space, any other character is kept. */
  lemma CollapseStep(s: string)
    requires s != []
    ensures IsSpace(s[0]) ==> CollapseSpaces(s) == [' '] + CollapseSpaces(TrimStart(s[1..]))
    ensures !IsSpace(s[0]) ==> CollapseSpaces(s) == [s[0]] + CollapseSpaces(s[1..])
  {
  }

  /** A tag at the start of the collapse of text that starts with a non-space is a tag of the text. */
  lemma CollapseHeadTag(s: string)
    requires s != [] && !IsSpace(s[0])
    requires TagAt(CollapseSpaces(s), 0)
    ensures TagAt(s, 0)
  {
    var u := s[1..];
    var c := CollapseSpaces(u);
    assert CollapseSpaces(s) == [s[0]] + c;
    CollapseSpacing(u);
    assert ([s[0]] + c)[2..] == c[1..];
    CollapseGtAfterHead(u);
    assert s[2..] == u[1..];
  }

  /** Slices keep the spacing properties. */
  lemma SliceSpacing(s: string, a: int, b: int)
    requires 0 <= a <= b <= |s|
    requires NoDoubleSpace(s) && PlainSpaces(s)
    ensures NoDoubleSpace(s[a..b]) && PlainSpaces(s[a..b])
  {
    var t := s[a..b];
    forall i | 0 <= i < |t| - 1 ensures !(IsSpace(t[i]) && IsSpace(t[i + 1])) {
      assert t[i] == s[a + i] && t[i + 1] == s[a + i + 1];
    }
  }

  /** Text with no `<`, only single plain spaces and no whitespace at its ends comes back unchanged. */
  lemma {:induction false} StripHtmlKeepsPlainText(s: string)
    requires '<' !in s
    requires NoDoubleSpace(s) && PlainSpaces(s)
    requires s != [] ==> !IsSpace(s[0]) && !IsSpace(s[|s| - 1])
    ensures StripHtml(s) == s
  {
    if s != [] {
      PlainTextUnchanged(s);
      var r := Trim(s);
      var i :| Surrounds(s, r, i);
    }
  }

  /** Neither substitution changes text with no `<` and only single plain spaces. */
  lemma {:induction false} PlainTextUnchanged(s: string)
    requires '<' !in s
    requires NoDoubleSpace(s) && PlainSpaces(s)
    ensures ReplaceTags(s) == s && CollapseSpaces(s) == s
    decreases |s|
  {
    if s != [] {
      assert s[1..] == s[1..|s|];
      assert NoDoubleSpace(s[1..]) && PlainSpaces(s[1..]) by {
        forall i | 0 <= i < |s[1..]| - 1 ensures !(IsSpace(s[1..][i]) && IsSpace(s[1..][i + 1])) {
          assert s[1..][i] == s[i + 1] && s[1..][i + 1] == s[i + 2];
        }
      }
      PlainTextUnchanged(s[1..]);
      assert !TagAt(s, 0);
      if IsSpace(s[0]) {
        assert |s| > 1 ==> !IsSpace(s[1]);
        assert TrimStart(s[1..]) == s[1..];
      }
      assert s == [s[0]] + s[1..];
    }
  }
}
