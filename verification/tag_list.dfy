/**
 The callback of the `shell:gitListRemoteTags` task: it turns the standard
 output of `git ls-remote --tags` (lines `<revision>\t<ref>`) into the ten
 greatest tag names, greatest first.
 */
module TagList {
  import opened JsText
  import opened LexOrder

  /** "refs/tags/" */
  const RefsTags: JsString := [0x72, 0x65, 0x66, 0x73, 0x2F, 0x74, 0x61, 0x67, 0x73, 0x2F]

  /** How many tags the prompt is offered at most. */
  const MaxTags: nat := 10

  /** The lines of the output: an empty or absent output has none; otherwise
      the output is trimmed and split at every newline. */
  function Lines(stdout: Option<JsString>): seq<JsString> {
    match stdout
    case None => []
    case Some(text) => if text == [] then [] else Split(Trim(text), Newline)
  }

  /** The lines hold no newline, and joined back with newlines they give the
      trimmed output. */
  lemma LinesOfOutput(stdout: Option<JsString>)
    ensures stdout == None || stdout == Some([]) ==> Lines(stdout) == []
    ensures forall k :: 0 <= k < |Lines(stdout)| ==> Newline !in Lines(stdout)[k]
    ensures stdout.Some? && stdout.value != [] ==>
      |Lines(stdout)| >= 1 && Join(Lines(stdout), Newline) == Trim(stdout.value)
  {
    if stdout.Some? && stdout.value != [] {
      SplitThenJoin(Trim(stdout.value), Newline);
      SplitPieces(Trim(stdout.value), Newline);
    }
  }

  /** A dereferenced annotated tag (`refs/tags/v1^{}`), which the cleaner
      skips. */
  predicate IsPeeled(line: JsString) {
    Caret in line
  }

  /** The cleaner reads the second tab-separated field of every line it
      keeps; a kept line without a tab makes the source throw. */
  predicate WellFormedOutput(stdout: Option<JsString>) {
    KeptLinesHaveTabs(Lines(stdout))
  }

  /** Walking the lines in order, every line that is not peeled holds a tab. */
  predicate KeptLinesHaveTabs(lines: seq<JsString>) {
    |lines| == 0 || ((IsPeeled(lines[0]) || Tab in lines[0]) && KeptLinesHaveTabs(lines[1..]))
  }

  /** The walk fails exactly when some kept line has no tab. */
  lemma {:induction false} KeptLinesHaveTabsIff(lines: seq<JsString>)
    ensures KeptLinesHaveTabs(lines) <==> forall l :: l in lines && !IsPeeled(l) ==> Tab in l
  {
    if |lines| > 0 {
      KeptLinesHaveTabsIff(lines[1..]);
      assert lines == [lines[0]] + lines[1..];
    }
  }

  /** `line.split("\t")[1]` */
  function SecondField(line: JsString): JsString
    requires Tab in line
  {
    Split(line, Tab)[1]
  }

  /** The tag name a kept line contributes. */
  function CleanLine(line: JsString): JsString
    requires Tab in line
  {
    StripPrefix(SecondField(line), RefsTags)
  }

  /** The loop over the lines: peeled lines contribute nothing, every other
      line contributes its cleaned name, in line order. */
  function TagNames(lines: seq<JsString>): seq<JsString>
    requires KeptLinesHaveTabs(lines)
  {
    if |lines| == 0 then []
    else
      var rest := TagNames(lines[1..]);
      if IsPeeled(lines[0]) then rest else [CleanLine(lines[0])] + rest
  }

  /** How many lines are not peeled. */
  function KeptCount(lines: seq<JsString>): nat {
    if |lines| == 0 then 0
    else (if IsPeeled(lines[0]) then 0 else 1) + KeptCount(lines[1..])
  }

  /** The names are exactly the cleaned kept lines: each name comes from a
      kept line, each kept line gives a name, and there is one name per kept
      line, duplicates included. */
  lemma {:induction false} TagNamesOfKeptLines(lines: seq<JsString>)
    requires KeptLinesHaveTabs(lines)
    ensures |TagNames(lines)| == KeptCount(lines) <= |lines|
    ensures forall n :: n in TagNames(lines) ==>
              exists l :: l in lines && !IsPeeled(l) && Tab in l && n == CleanLine(l)
    ensures forall l :: l in lines && !IsPeeled(l) ==> Tab in l && CleanLine(l) in TagNames(lines)
  {
    if |lines| > 0 {
      TagNamesOfKeptLines(lines[1..]);
      assert lines == [lines[0]] + lines[1..];
    }
  }

  /** The walk over two blocks of lines succeeds exactly when it succeeds on
      each block. */
  lemma {:induction false} KeptLinesHaveTabsAppend(a: seq<JsString>, b: seq<JsString>)
    ensures KeptLinesHaveTabs(a + b) <==> KeptLinesHaveTabs(a) && KeptLinesHaveTabs(b)
  {
    if |a| == 0 {
      assert a + b == b;
    } else {
      assert (a + b)[0] == a[0];
      assert (a + b)[1..] == a[1..] + b;
      KeptLinesHaveTabsAppend(a[1..], b);
    }
  }

  /** The names of two blocks of lines are the names of the first block
      followed by those of the second: the loop keeps line order and
      multiplicity. */
  lemma {:induction false} TagNamesAppend(a: seq<JsString>, b: seq<JsString>)
    requires KeptLinesHaveTabs(a) && KeptLinesHaveTabs(b)
    ensures KeptLinesHaveTabs(a + b)
    ensures TagNames(a + b) == TagNames(a) + TagNames(b)
  {
    KeptLinesHaveTabsAppend(a, b);
    if |a| == 0 {
      assert a + b == b;
    } else {
      assert (a + b)[0] == a[0];
      assert (a + b)[1..] == a[1..] + b;
      TagNamesAppend(a[1..], b);
    }
  }

  /** One line in the middle of the output contributes exactly its cleaned
      name, once, in its place, or nothing when it is peeled. With
      `TagNamesAppend` this fixes the names completely, order and
      multiplicity included. */
  lemma {:induction false} TagNamesAroundLine(a: seq<JsString>, l: JsString, b: seq<JsString>)
    requires KeptLinesHaveTabs(a + [l] + b)
    ensures KeptLinesHaveTabs(a) && KeptLinesHaveTabs(b) && (IsPeeled(l) || Tab in l)
    ensures TagNames(a + [l] + b) ==
      TagNames(a) + (if IsPeeled(l) then [] else [CleanLine(l)]) + TagNames(b)
  {
    KeptLinesHaveTabsAppend(a + [l], b);
    KeptLinesHaveTabsAppend(a, [l]);
    assert [l][1..] == [];
    TagNamesAppend(a, [l]);
    TagNamesAppend(a + [l], b);
  }

  /** The whole callback: the names sorted, reversed and cut to ten. */
  function CleanTags(stdout: Option<JsString>): seq<JsString>
    requires WellFormedOutput(stdout)
  {
    var sorted := SortDescending(TagNames(Lines(stdout)));
    sorted[..Min(MaxTags, |sorted|)]
  }

  /** At most ten names, in descending order, and they are the greatest of
      all the names the kept lines contribute; no output gives no names. */
  lemma CleanTagsAreGreatest(stdout: Option<JsString>)
    requires WellFormedOutput(stdout)
    ensures var names := TagNames(Lines(stdout));
      var tags := CleanTags(stdout);
      && |tags| == Min(MaxTags, |names|)
      && Descending(tags)
      && multiset(tags) <= multiset(names)
      && (forall x, y :: x in tags && y in multiset(names) - multiset(tags) ==> LexLe(y, x))
    ensures stdout == None || stdout == Some([]) ==> CleanTags(stdout) == []
  {
    var sorted := SortDescending(TagNames(Lines(stdout)));
    SortDescendingSorts(TagNames(Lines(stdout)));
    PrefixOfDescendingIsGreatest(sorted, Min(MaxTags, |sorted|));
  }

  /** The result is the first `min(10, n)` entries of ANY descending
      arrangement of the names: it does not depend on how they were sorted. */
  lemma CleanTagsIsTopOfAnySort(stdout: Option<JsString>, d: seq<JsString>)
    requires WellFormedOutput(stdout)
    requires Descending(d)
    requires multiset(d) == multiset(TagNames(Lines(stdout)))
    ensures CleanTags(stdout) == d[..Min(MaxTags, |d|)]
  {
    SortDescendingSorts(TagNames(Lines(stdout)));
    DescendingUnique(SortDescending(TagNames(Lines(stdout))), d);
  }

  /** Every entry is the second field, with one `refs/tags/` removed, of a
      line of the output that is not a peeled tag. */
  lemma CleanTagsOrigin(stdout: Option<JsString>)
    requires WellFormedOutput(stdout)
    ensures forall t :: t in CleanTags(stdout) ==>
              exists l :: l in Lines(stdout) && !IsPeeled(l) && Tab in l && t == CleanLine(l)
  {
    var names := TagNames(Lines(stdout));
    var tags := CleanTags(stdout);
    CleanTagsAreGreatest(stdout);
    TagNamesOfKeptLines(Lines(stdout));
    forall t | t in tags ensures t in names {
      assert t in multiset(tags);
    }
  }

  /** The units of a cleaned name all come from its line, and it holds no
      tab. */
  lemma CleanLineContents(line: JsString)
    requires Tab in line
    ensures Tab !in CleanLine(line)
    ensures forall c :: c in CleanLine(line) ==> c in line
  {
    var parts := Split(line, Tab);
    SplitPieces(line, Tab);
    var f := SecondField(line);
    assert f == parts[1];
    if StartsWith(f, RefsTags) {
      assert forall c :: c in f[|RefsTags|..] ==> c in f;
    }
  }

  /** No entry contains `^`, a tab or a newline. */
  lemma CleanTagsAreBare(stdout: Option<JsString>)
    requires WellFormedOutput(stdout)
    ensures forall t :: t in CleanTags(stdout) ==> Caret !in t && Tab !in t && Newline !in t
  {
    CleanTagsOrigin(stdout);
    LinesOfOutput(stdout);
    forall t | t in CleanTags(stdout) ensures Caret !in t && Tab !in t && Newline !in t {
      var l :| l in Lines(stdout) && !IsPeeled(l) && Tab in l && t == CleanLine(l);
      CleanLineContents(l);
    }
  }

  /** One `refs/tags/` is removed, not more: an entry still starts with it
      only when the ref carried it twice. */
  lemma CleanLineStripsOnce(line: JsString)
    requires Tab in line
    ensures StartsWith(SecondField(line), RefsTags) ==> RefsTags + CleanLine(line) == SecondField(line)
    ensures !StartsWith(SecondField(line), RefsTags) ==> CleanLine(line) == SecondField(line)
    ensures StartsWith(CleanLine(line), RefsTags) ==> StartsWith(SecondField(line), RefsTags + RefsTags)
  {
    var f := SecondField(line);
    var r := CleanLine(line);
    if StartsWith(r, RefsTags) && StartsWith(f, RefsTags) {
      assert f == RefsTags + r;
      assert f[..|RefsTags + RefsTags|] == RefsTags + r[..|RefsTags|];
    }
  }

  /** An output holding whitespace alone (a lone line break, say) trims to
      the empty text, which splits into one empty line without a tab: the
      source throws on it rather than returning no tags. */
  lemma BlankOutputIsRejected(text: JsString)
    requires text != [] && AllWhitespace(text)
    ensures !WellFormedOutput(Some(text))
  {
    var lines := Lines(Some(text));
    assert lines == Split(Trim(text), Newline);
    TrimOfBlank(text);
    var empty: JsString := [];
    assert lines == Split(empty, Newline);
    assert lines == [empty];
    assert !(IsPeeled(empty) || Tab in empty);
  }
}
