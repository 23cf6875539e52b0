/** The description conversion of the data mapper (src/data_mapper.py): OggDude markup
    becomes Realm VTT HTML. The two repair passes, the `<strong>` balancer and the
    line-by-line structure fixer, are modelled in full; of the rewriting before them only
    the literal entity replacements are, and the regular-expression stages are parameters. */
module Markup {
  import opened Wrappers
  import opened Text
  import opened Values

  // ---------------------------------------------------------------------------
  // The `<strong>` balancer

  /** A match of `<(/?)(strong|b)>`. */
  datatype BoldTag = OpenStrong | CloseStrong | OpenB | CloseB
  {
    function Text(): (r: string)
      ensures 3 <= |r| <= 9
    {
      match this
      case OpenStrong => "<strong>"
      case CloseStrong => "</strong>"
      case OpenB => "<b>"
      case CloseB => "</b>"
    }

    /** The `/` group is non-empty. */
    predicate Closing() {
      this == CloseStrong || this == CloseB
    }

    /** `f'<{tag_name}>'`, what an opening tag of this name pushes. */
    function Opener(): string {
      if this == OpenStrong || this == CloseStrong then "<strong>" else "<b>"
    }
  }

  /** The tag the pattern matches at the front of `t`, if any. The four texts differ
      within their first three characters, so at most one of them fits. */
  function TagAtFront(t: string): (r: Option<BoldTag>)
    ensures r.Some? ==> StartsWith(t, r.value.Text())
  {
    if |t| == 0 || t[0] != '<' then None
    else if StartsWith(t, "<strong>") then Some(OpenStrong)
    else if StartsWith(t, "</strong>") then Some(CloseStrong)
    else if StartsWith(t, "<b>") then Some(OpenB)
    else if StartsWith(t, "</b>") then Some(CloseB)
    else None
  }

  /** The tag the pattern matches at position `i`, if any. */
  function TagAt(s: string, i: nat): (r: Option<BoldTag>)
    requires i <= |s|
    ensures r.Some? ==> i + |r.value.Text()| <= |s| && s[i..i + |r.value.Text()|] == r.value.Text()
  {
    var r := TagAtFront(s[i..]);
    if r.Some? then assert s[i..][..|r.value.Text()|] == s[i..i + |r.value.Text()|]; r else r
  }

  /** The stack after one tag: an opening tag is pushed; a closing tag pops only when the
      top is its own opener, and is otherwise kept without touching the stack. */
  function Step(stack: seq<string>, t: BoldTag): seq<string> {
    if !t.Closing() then stack + [t.Opener()]
    else if |stack| > 0 && stack[|stack| - 1] == t.Opener() then stack[..|stack| - 1]
    else stack
  }

  /** The stack once the scan has gone from position `i` to the end of `s`. */
  function Scan(s: string, i: nat, stack: seq<string>): seq<string>
    requires i <= |s|
    decreases |s| - i
  {
    if i == |s| then stack
    else match TagAt(s, i)
      case Some(t) => Scan(s, i + |t.Text()|, Step(stack, t))
      case None => Scan(s, i + 1, stack)
  }

  /** One step of the scan. */
  lemma ScanOnce(s: string, i: nat, stack: seq<string>)
    requires i < |s|
    ensures Scan(s, i, stack) ==
      match TagAt(s, i)
      case Some(t) => Scan(s, i + |t.Text()|, Step(stack, t))
      case None => Scan(s, i + 1, stack)
  {}

  lemma ScanEnd(s: string, stack: seq<string>)
    ensures Scan(s, |s|, stack) == stack
  {}

  /** The openers left unclosed at the end of `line`. */
  function Unclosed(line: string): seq<string> {
    Scan(line, 0, [])
  }

  /** What `_fix_bold_tags` returns. */
  function BoldFixed(line: string): string {
    line + Repeat("</strong>", |Unclosed(line)|)
  }

  lemma {:induction false} RepeatAppend(text: string, n: nat)
    ensures Repeat(text, n + 1) == Repeat(text, n) + text
  {
    if n > 0 {
      RepeatAppend(text, n - 1);
    }
  }

  lemma PrefixExtend(s: string, i: nat, n: nat)
    requires i + n <= |s|
    ensures s[..i + n] == s[..i] + s[i..i + n]
    ensures n == 1 ==> s[i..i + n] == [s[i]]
  {
  }

  /** The branch of `_fix_bold_tags` for one matched tag: the tag text is always kept,
      and the stack changes by `Step`. */
  method HandleTag(stack: seq<string>, result: string, t: BoldTag) returns (stack': seq<string>, result': string)
    ensures stack' == Step(stack, t) && result' == result + t.Text()
  {
    stack' := stack;
    if t.Closing() && (|stack| == 0 || stack[|stack| - 1] != t.Opener()) {
      result' := result + t.Text();
    } else if !t.Closing() && (|stack| > 0 && stack[|stack| - 1] == t.Opener()) {
      stack' := stack + [t.Opener()];
      result' := result + t.Text();
    } else {
      if t.Closing() {
        if |stack| > 0 {
          stack' := stack[..|stack| - 1];
        }
        result' := result + t.Text();
      } else {
        stack' := stack + [t.Opener()];
        result' := result + t.Text();
      }
    }
  }

  /** `_fix_bold_tags`: the line comes back unchanged, followed by one `</strong>` for each
      opening tag still unclosed at its end. */
  method FixBoldTags(line: string) returns (r: string)
    ensures r == line + Repeat("</strong>", |Unclosed(line)|)
  {
    hide TagAt, TagAtFront, Repeat, Scan, Step, BoldTag.Text;
    var stack: seq<string> := [];
    var result := "";
    var i := 0;
    while i < |line|
      invariant 0 <= i <= |line|
      invariant result == line[..i]
      invariant Scan(line, i, stack) == Unclosed(line)
      decreases |line| - i
    {
      var tag := TagAt(line, i);
      ScanOnce(line, i, stack);
      if tag.Some? {
        var t := tag.value;
        stack, result := HandleTag(stack, result, t);
        PrefixExtend(line, i, |t.Text()|);
        i := i + |t.Text()|;
      } else {
        PrefixExtend(line, i, 1);
        result := result + [line[i]];
        i := i + 1;
      }
    }
    assert line[..i] == line;
    ScanEnd(line, stack);
    r := CloseOpen(result, stack);
  }

  /** The final loop of `_fix_bold_tags`: pop the stack, one `</strong>` per entry. */
  method CloseOpen(result: string, stack: seq<string>) returns (r: string)
    ensures r == result + Repeat("</strong>", |stack|)
  {
    hide Repeat;
    var s := stack;
    r := result;
    while |s| > 0
      invariant |s| <= |stack|
      invariant r == result + Repeat("</strong>", |stack| - |s|)
      decreases |s|
    {
      s := s[..|s| - 1];
      var k := |stack| - |s| - 1;
      RepeatAppend("</strong>", k);
      assert r + "</strong>" == result + (Repeat("</strong>", k) + "</strong>");
      r := r + "</strong>";
    }
  }

  /** A match at `i` shows the text there. */
  lemma {:induction false} StartsAtContains(s: string, i: nat, p: string)
    requires i <= |s| && StartsWith(s[i..], p)
    ensures Contains(s, p)
  {
    assert s[i..i + |p|] == p;
    ContainsAt(s, p, i);
  }

  /** Without a `<b>` in the line, everything left on the stack opens a `<strong>`. */
  lemma {:induction false} ScanStrong(s: string, i: nat, stack: seq<string>)
    requires i <= |s| && !Contains(s, "<b>")
    requires forall j :: 0 <= j < |stack| ==> stack[j] == "<strong>"
    ensures forall j :: 0 <= j < |Scan(s, i, stack)| ==> Scan(s, i, stack)[j] == "<strong>"
    decreases |s| - i
  {
    if i < |s| {
      match TagAt(s, i)
      case Some(t) =>
        if t == OpenB {
          StartsAtContains(s, i, "<b>");
        }
        ScanStrong(s, i + |t.Text()|, Step(stack, t));
      case None =>
        ScanStrong(s, i + 1, stack);
    }
  }

  lemma SuffixShift(a: string, s: string, j: nat)
    requires j <= |s|
    ensures (a + s)[|a| + j..] == s[j..]
  {
  }

  /** Scanning `a + s` from inside `s` is scanning `s`. */
  lemma {:induction false} ScanShift(a: string, s: string, j: nat, stack: seq<string>)
    requires j <= |s|
    ensures Scan(a + s, |a| + j, stack) == Scan(s, j, stack)
    decreases |s| - j
  {
    hide TagAtFront, Step, BoldTag.Text;
    if j < |s| {
      SuffixShift(a, s, j);
      var tag := TagAt(s, j);
      assert TagAt(a + s, |a| + j) == tag;
      if tag.Some? {
        var n := |tag.value.Text()|;
        var st := Step(stack, tag.value);
        assert Scan(a + s, |a| + j, stack) == Scan(a + s, |a| + (j + n), st);
        assert Scan(s, j, stack) == Scan(s, j + n, st);
        ScanShift(a, s, j + n, st);
      } else {
        assert Scan(a + s, |a| + j, stack) == Scan(a + s, |a| + (j + 1), stack);
        assert Scan(s, j, stack) == Scan(s, j + 1, stack);
        ScanShift(a, s, j + 1, stack);
      }
    } else {
      assert |a + s| == |a| + j;
    }
  }

  /** The four tag texts have `<` only in front. */
  lemma TagTexts(t: BoldTag, k: nat)
    requires 0 < k < |t.Text()|
    ensures t.Text()[k] != '<'
  {
  }

  /** No tag runs from `a` into a following text that starts with `<`. */
  lemma TagWithin(a: string, s: string, i: nat)
    requires i < |a| && (s == [] || s[0] == '<')
    ensures TagAt(a + s, i) == TagAt(a, i)
  {
    var x := a + s;
    forall t: BoldTag
      ensures StartsWith(x[i..], t.Text()) <==> StartsWith(a[i..], t.Text())
    {
      if i + |t.Text()| <= |a| {
        assert x[i..][..|t.Text()|] == a[i..][..|t.Text()|];
      } else if StartsWith(x[i..], t.Text()) {
        var k := |a| - i;
        assert x[|a|] == t.Text()[k];
        TagTexts(t, k);
      }
    }
    assert OpenStrong.Text() == "<strong>" && CloseStrong.Text() == "</strong>";
    assert OpenB.Text() == "<b>" && CloseB.Text() == "</b>";
  }

  /** Scanning `a + s` is scanning `a` and then `s`, when `s` starts with a tag's `<`. */
  lemma {:induction false} ScanAppend(a: string, s: string, i: nat, stack: seq<string>)
    requires i <= |a| && (s == [] || s[0] == '<')
    ensures Scan(a + s, i, stack) == Scan(s, 0, Scan(a, i, stack))
    decreases |a| - i
  {
    hide TagAtFront, Step, BoldTag.Text;
    if i == |a| {
      ScanShift(a, s, 0, stack);
    } else {
      TagWithin(a, s, i);
      var tag := TagAt(a, i);
      if tag.Some? {
        var next := i + |tag.value.Text()|;
        var st := Step(stack, tag.value);
        assert Scan(a + s, i, stack) == Scan(a + s, next, st);
        assert Scan(a, i, stack) == Scan(a, next, st);
        ScanAppend(a, s, next, st);
      } else {
        assert Scan(a + s, i, stack) == Scan(a + s, i + 1, stack);
        assert Scan(a, i, stack) == Scan(a, i + 1, stack);
        ScanAppend(a, s, i + 1, stack);
      }
    }
  }

  /** The scanner sees a `</strong>` at the front of `closer + rest`. */
  lemma CloserAtFront(rest: string)
    ensures TagAt("</strong>" + rest, 0) == Some(CloseStrong)
  {
    var x := "</strong>" + rest;
    assert x[0..] == x;
    assert x[..9] == "</strong>";
    assert x[1] == '/';
  }

  /** One leading `</strong>` pops one `<strong>`. */
  lemma CloserStep(rest: string, stack: seq<string>)
    requires |stack| > 0 && stack[|stack| - 1] == "<strong>"
    ensures Scan("</strong>" + rest, 0, stack) == Scan(rest, 0, stack[..|stack| - 1])
  {
    CloserAtFront(rest);
    assert Step(stack, CloseStrong) == stack[..|stack| - 1];
    ScanShift("</strong>", rest, 0, stack[..|stack| - 1]);
  }

  lemma PopPrefix(stack: seq<string>, k: nat)
    requires 0 < k <= |stack|
    ensures stack[..|stack| - 1][..|stack| - k] == stack[..|stack| - k]
  {
  }

  /** Each appended `</strong>` closes one open `<strong>`. */
  lemma {:induction false} ScanClosers(k: nat, stack: seq<string>)
    requires k <= |stack|
    requires forall j :: 0 <= j < |stack| ==> stack[j] == "<strong>"
    ensures Scan(Repeat("</strong>", k), 0, stack) == stack[..|stack| - k]
    decreases k
  {
    if k == 0 {
      assert stack[..|stack|] == stack;
    } else {
      var popped := stack[..|stack| - 1];
      CloserStep(Repeat("</strong>", k - 1), stack);
      ScanClosers(k - 1, popped);
      PopPrefix(stack, k);
    }
  }

  /** On a line whose bold tags are all `<strong>` tags, balancing twice is balancing once:
      the appended closers close exactly what was left open. */
  lemma BoldFixedIdempotent(line: string)
    requires !Contains(line, "<b>")
    ensures BoldFixed(BoldFixed(line)) == BoldFixed(line)
  {
    var open := Unclosed(line);
    var closers := Repeat("</strong>", |open|);
    ScanStrong(line, 0, []);
    ScanAppend(line, closers, 0, []);
    ScanClosers(|open|, open);
  }

  /** A line without any bold tag is left as it is. */
  lemma {:induction false} ScanNoTags(s: string, i: nat, stack: seq<string>)
    requires i <= |s| && '<' !in s
    ensures Scan(s, i, stack) == stack
    decreases |s| - i
  {
    if i < |s| {
      assert s[i..][0] == s[i];
      ScanNoTags(s, i + 1, stack);
    }
  }

  // ---------------------------------------------------------------------------
  // The line-by-line structure fixer

  predicate HasStrongTag(l: string) {
    Contains(l, "<strong>") || Contains(l, "</strong>")
  }

  /** The test for wrapping a line in `<p>`: no paragraph or other block tag, not blank, and
      not starting or ending like markup once stripped. */
  predicate NeedsParagraph(l: string) {
    !Contains(l, "<p>") && |Strip(l)| > 0 &&
    !Contains(l, "<li>") && !Contains(l, "<ul>") && !Contains(l, "</ul>") &&
    !Contains(l, "<ol>") && !Contains(l, "</ol>") && !Contains(l, "<h") && !Contains(l, "</h") &&
    !HasStrongTag(l) &&
    !StartsWith(Strip(l), "<") && !EndsWith(Strip(l), ">")
  }

  /** The steps of the loop body after the list check: bold balancing, the paragraph fix,
      then closing a list item. */
  function FixTail(line: string): string {
    var bolded := if HasStrongTag(line) then BoldFixed(line) else line;
    var para :=
      if Contains(bolded, "<p>") && !Contains(bolded, "</p>") then bolded + "</p>"
      else if NeedsParagraph(bolded) then "<p>" + bolded + "</p>"
      else bolded;
    if Contains(para, "<li>") && !Contains(para, "</li>") then para + "</li>" else para
  }

  /** One pass of the loop body: the fixed line and the new `found_list`. A `</ul>` before
      any `<ul>` is rewritten into one. */
  function FixLine(line: string, found: bool): (string, bool) {
    var listOpen := found || Contains(line, "<ul>");
    if Contains(line, "</ul>") then
      if !listOpen then (FixTail(ReplaceAll(line, "</ul>", "<ul>")), true)
      else (FixTail(line), false)
    else (FixTail(line), listOpen)
  }

  /** The fixed lines, from a given `found_list`. */
  function FixLines(lines: seq<string>, found: bool): seq<string>
    decreases |lines|
  {
    if lines == [] then []
    else [FixLine(lines[0], found).0] + FixLines(lines[1..], FixLine(lines[0], found).1)
  }

  /** What `_fix_html_structure` returns. */
  function FixHtml(html: string): string {
    JoinWith(FixLines(SplitOn(html, '\n'), false), '\n')
  }

  /** The bold, paragraph and list-item steps of the loop body. */
  method FixTailStep(line: string) returns (r: string)
    ensures r == FixTail(line)
  {
    r := line;
    if Contains(r, "<strong>") || Contains(r, "</strong>") {
      r := FixBoldTags(r);
    }
    if Contains(r, "<p>") && !Contains(r, "</p>") {
      r := r + "</p>";
    } else if NeedsParagraph(r) {
      r := "<p>" + r + "</p>";
    }
    if Contains(r, "<li>") && !Contains(r, "</li>") {
      r := r + "</li>";
    }
  }

  /** The loop body of `_fix_html_structure`. */
  method FixLineStep(line: string, found: bool) returns (r: string, f: bool)
    ensures (r, f) == FixLine(line, found)
  {
    var l := line;
    f := found;
    if Contains(l, "<ul>") {
      f := true;
    }
    if Contains(l, "</ul>") {
      if !f {
        l := ReplaceAll(l, "</ul>", "<ul>");
        f := true;
      } else {
        f := false;
      }
    }
    r := FixTailStep(l);
  }

  /** `_fix_html_structure`, line by line with the `found_list` flag. */
  method FixHtmlStructure(html: string) returns (r: string)
    ensures r == FixHtml(html)
  {
    hide FixLine, FixTail, SplitOn, JoinWith;
    var lines := SplitOn(html, '\n');
    var fixed: seq<string> := [];
    var found := false;
    var i := 0;
    while i < |lines|
      invariant 0 <= i <= |lines|
      invariant fixed + FixLines(lines[i..], found) == FixLines(lines, false)
      decreases |lines| - i
    {
      var line;
      line, found := FixLineStep(lines[i], found);
      assert lines[i..] == [lines[i]] + lines[i + 1..];
      fixed := fixed + [line];
      i := i + 1;
    }
    assert lines[i..] == [];
    assert FixLines(lines[i..], found) == [];
    assert fixed == FixLines(lines, false);
    r := JoinWith(fixed, '\n');
  }

  lemma {:induction false} ReplaceKeepsOut(s: string, pat: string, rep: string, c: char)
    requires |pat| > 0 && c !in s && c !in rep
    ensures c !in ReplaceAll(s, pat, rep)
    decreases |s|
  {
    if StartsWith(s, pat) {
      ReplaceKeepsOut(s[|pat|..], pat, rep, c);
    } else if |s| > 0 {
      ReplaceKeepsOut(s[1..], pat, rep, c);
    }
  }

  lemma {:induction false} RepeatKeepsOut(text: string, n: nat, c: char)
    requires c !in text
    ensures c !in Repeat(text, n)
  {
    if n > 0 {
      RepeatKeepsOut(text, n - 1, c);
    }
  }

  lemma FixTailOneLine(line: string)
    requires '\n' !in line
    ensures '\n' !in FixTail(line)
  {
    hide Contains, NeedsParagraph, HasStrongTag, Unclosed;
    RepeatKeepsOut("</strong>", |Unclosed(line)|, '\n');
    var bolded := if HasStrongTag(line) then BoldFixed(line) else line;
    assert '\n' !in bolded;
    var para :=
      if Contains(bolded, "<p>") && !Contains(bolded, "</p>") then bolded + "</p>"
      else if NeedsParagraph(bolded) then "<p>" + bolded + "</p>"
      else bolded;
    assert '\n' !in para;
  }

  /** No fixed line gains a line break. */
  lemma {:induction false} FixLinesOneLine(lines: seq<string>, found: bool)
    requires forall i :: 0 <= i < |lines| ==> '\n' !in lines[i]
    ensures |FixLines(lines, found)| == |lines|
    ensures forall i :: 0 <= i < |lines| ==> '\n' !in FixLines(lines, found)[i]
    decreases |lines|
  {
    if lines != [] {
      FixTailOneLine(lines[0]);
      ReplaceKeepsOut(lines[0], "</ul>", "<ul>", '\n');
      FixTailOneLine(ReplaceAll(lines[0], "</ul>", "<ul>"));
      FixLinesOneLine(lines[1..], FixLine(lines[0], found).1);
    }
  }

  /** The fixer keeps the number of lines, and its lines are the fixed input lines. */
  lemma FixHtmlLines(html: string)
    ensures SplitOn(FixHtml(html), '\n') == FixLines(SplitOn(html, '\n'), false)
    ensures |SplitOn(FixHtml(html), '\n')| == |SplitOn(html, '\n')|
  {
    var lines := SplitOn(html, '\n');
    FixLinesOneLine(lines, false);
    SplitJoin(FixLines(lines, false), '\n');
  }

  /** Before any list has been opened, a stray `</ul>` is rewritten to `<ul>` and opens
      one; with a list open, `</ul>` closes it and stays. */
  lemma StrayListClose(line: string)
    requires Contains(line, "</ul>") && !Contains(line, "<ul>")
    ensures FixLine(line, false) == (FixTail(ReplaceAll(line, "</ul>", "<ul>")), true)
    ensures FixLine(line, true) == (FixTail(line), false)
  {
  }

  // Facts about where tags can occur

  lemma {:induction false} ContainsFirst(s: string, p: string)
    requires |p| > 0 && Contains(s, p)
    ensures p[0] in s
    decreases |s|
  {
    if !StartsWith(s, p) {
      ContainsFirst(s[1..], p);
    }
  }

  lemma NoStraddle(a: string, b: string, p: string)
    requires 0 < |a| < |p| && '<' !in p[1..]
    requires b == [] || b[0] == '<'
    ensures !StartsWith(a + b, p)
  {
    var x := a + b;
    if |p| <= |x| {
      assert x[|a|] == '<';
      assert p[1..][|a| - 1] == p[|a|];
      assert x[..|p|][|a|] != p[|a|];
    }
  }

  /** A tag starting with `<` and with no other `<` does not run from `a` into a `b`
      that starts with `<`. */
  lemma {:induction false} ContainsAppendTag(a: string, b: string, p: string)
    requires |p| > 0 && p[0] == '<' && '<' !in p[1..]
    requires b == [] || b[0] == '<'
    ensures Contains(a + b, p) <==> Contains(a, p) || Contains(b, p)
    decreases |a|
  {
    var x := a + b;
    if a == [] {
      assert x == b;
    } else {
      assert x[1..] == a[1..] + b;
      ContainsAppendTag(a[1..], b, p);
      assert Contains(x, p) == (StartsWith(x, p) || Contains(a[1..] + b, p));
      assert Contains(a, p) == (StartsWith(a, p) || Contains(a[1..], p));
      if |p| <= |a| {
        assert x[..|p|] == a[..|p|];
      } else {
        NoStraddle(a, b, p);
      }
    }
  }

  lemma {:induction false} ContainsOnlyAtFront(s: string, p: string)
    requires |s| > 0 && |p| > 0 && p[0] !in s[1..]
    ensures Contains(s, p) <==> StartsWith(s, p)
  {
    if Contains(s, p) && !StartsWith(s, p) {
      ContainsFirst(s[1..], p);
    }
  }

  lemma NoCharNoContains(s: string, p: string)
    requires |p| > 0 && p[0] !in s
    ensures !Contains(s, p)
  {
    if Contains(s, p) {
      ContainsFirst(s, p);
    }
  }

  lemma StripChars(s: string)
    ensures forall c :: c in Strip(s) ==> c in s
  {
    var l := StripLeft(s);
    assert forall c :: c in l ==> c in s;
    assert forall c :: c in StripRight(l) ==> c in l;
  }

  /** A non-blank line without `<` or `>` carries no tag, so it needs a paragraph. */
  lemma PlainLineNeedsParagraph(line: string)
    requires '<' !in line && '>' !in line && |Strip(line)| > 0
    ensures !HasStrongTag(line) && !Contains(line, "<p>") && NeedsParagraph(line)
  {
    NoCharNoContains(line, "<strong>");
    NoCharNoContains(line, "</strong>");
    NoCharNoContains(line, "<p>");
    NoCharNoContains(line, "<li>");
    NoCharNoContains(line, "<ul>");
    NoCharNoContains(line, "</ul>");
    NoCharNoContains(line, "<ol>");
    NoCharNoContains(line, "</ol>");
    NoCharNoContains(line, "<h");
    NoCharNoContains(line, "</h");
    StripChars(line);
  }

  /** Wrapping a line without `<` in a paragraph adds no list item. */
  lemma WrappedHasNoListItem(line: string)
    requires '<' !in line
    ensures !Contains("<p>" + line + "</p>", "<li>")
  {
    var front := "<p>" + line;
    assert front[1..] == "p>" + line;
    assert front[1] == 'p';
    ContainsOnlyAtFront(front, "<li>");
    assert !StartsWith(front, "<li>") by {
      if |front| >= 4 { assert front[..4][1] == 'p'; }
    }
    ContainsOnlyAtFront("</p>", "<li>");
    assert !StartsWith("</p>", "<li>") by {
      assert "</p>"[..4][1] == '/';
    }
    ContainsAppendTag(front, "</p>", "<li>");
    assert "<p>" + line + "</p>" == front + "</p>";
  }

  /** A non-blank line without markup is wrapped in a paragraph. */
  lemma WrapsPlainLine(line: string)
    requires '<' !in line && '>' !in line && |Strip(line)| > 0
    ensures FixTail(line) == "<p>" + line + "</p>"
  {
    PlainLineNeedsParagraph(line);
    WrappedHasNoListItem(line);
  }

  lemma ClosingParagraphAddsNoListItem(line: string)
    requires !Contains(line, "<li>")
    ensures !Contains(line + "</p>", "<li>")
  {
    ContainsAppendTag(line, "</p>", "<li>");
    ContainsOnlyAtFront("</p>", "<li>");
    assert "</p>"[..4][1] != "<li>"[1];
  }

  /** An opened paragraph that is not closed gets `</p>` appended. */
  lemma ClosesParagraph(line: string)
    requires Contains(line, "<p>") && !Contains(line, "</p>")
    requires !HasStrongTag(line) && !Contains(line, "<li>")
    ensures FixTail(line) == line + "</p>"
  {
    ClosingParagraphAddsNoListItem(line);
  }

  /** An opened list item that is not closed gets `</li>` appended. */
  lemma ClosesListItem(line: string)
    requires Contains(line, "<li>") && !Contains(line, "</li>")
    requires !HasStrongTag(line) && !Contains(line, "<p>")
    ensures FixTail(line) == line + "</li>"
  {
  }

  // ---------------------------------------------------------------------------
  // The description conversion

  /** The HTML-escaped markup OggDude data carries, with the tags it stands for. `&lt;ol&gt;`
      lists become unordered ones. */
  function DecodeEntities(html: string): string {
    var h := ReplaceAll(html, "&lt;h&gt;", "<h>");
    var h := ReplaceAll(h, "&lt;/h&gt;", "</h>");
    var h := ReplaceAll(h, "&lt;b&gt;", "<b>");
    var h := ReplaceAll(h, "&lt;/b&gt;", "</b>");
    var h := ReplaceAll(h, "&lt;p&gt;", "<p>");
    var h := ReplaceAll(h, "&lt;/p&gt;", "</p>");
    var h := ReplaceAll(h, "&amp;#", "&#");
    var h := ReplaceAll(h, "&lt;ul&gt;", "<ul>");
    var h := ReplaceAll(h, "&lt;/ul&gt;", "</ul>");
    var h := ReplaceAll(h, "&lt;li&gt;", "<li>");
    var h := ReplaceAll(h, "&lt;/li&gt;", "</li>");
    var h := ReplaceAll(h, "&lt;ol&gt;", "<ul>");
    ReplaceAll(h, "&lt;/ol&gt;", "</ul>")
  }

  lemma EntityAbsent(html: string, entity: string, tag: string)
    requires |entity| > 0 && entity[0] == '&' && '&' !in html
    ensures ReplaceAll(html, entity, tag) == html
  {
    NoCharNoContains(html, entity);
    ReplaceAbsent(html, entity, tag);
  }

  /** Text without an `&` has no entity to decode. */
  lemma DecodeWithoutAmpersand(html: string)
    requires '&' !in html
    ensures DecodeEntities(html) == html
  {
    EntityAbsent(html, "&lt;h&gt;", "<h>");
    EntityAbsent(html, "&lt;/h&gt;", "</h>");
    EntityAbsent(html, "&lt;b&gt;", "<b>");
    EntityAbsent(html, "&lt;/b&gt;", "</b>");
    EntityAbsent(html, "&lt;p&gt;", "<p>");
    EntityAbsent(html, "&lt;/p&gt;", "</p>");
    EntityAbsent(html, "&amp;#", "&#");
    EntityAbsent(html, "&lt;ul&gt;", "<ul>");
    EntityAbsent(html, "&lt;/ul&gt;", "</ul>");
    EntityAbsent(html, "&lt;li&gt;", "<li>");
    EntityAbsent(html, "&lt;/li&gt;", "</li>");
    EntityAbsent(html, "&lt;ol&gt;", "<ul>");
    EntityAbsent(html, "&lt;/ol&gt;", "</ul>");
  }

  /** The stages of the conversion that the model takes as given: the typo fixes before the
      entity replacements, the tag rewriting after them (headers, bold, italics, paragraphs,
      lists, dice, together with the plain replacements of `[P]`, `[/P]` and `[BR]` that sit
      among those rewrites), and the marking of leftover tags at the end. */
  datatype Rewriter = Rewriter(typos: string -> string, tags: string -> string, leftovers: string -> string)

  /** What `_convert_description` returns; a truthy description that is not a string makes
      the first `re.sub` raise. */
  function DescriptionSpec(description: Value, rw: Rewriter): Result<string> {
    if !Truthy(description) then Ok("")
    else if !description.VStr? then Err("TypeError: expected string")
    else Ok(rw.leftovers(FixHtml(rw.tags(DecodeEntities(rw.typos(description.s))))))
  }

  /** `_convert_description`. */
  method ConvertDescription(description: Value, rw: Rewriter) returns (r: Result<string>)
    ensures !Truthy(description) ==> r == Ok("")
    ensures r.Ok? <==> !Truthy(description) || description.VStr?
    ensures r == DescriptionSpec(description, rw)
  {
    if !Truthy(description) {
      return Ok("");
    }
    if !description.VStr? {
      return Err("TypeError: expected string");
    }
    var html := rw.typos(description.s);
    html := DecodeEntities(html);
    html := rw.tags(html);
    html := FixHtmlStructure(html);
    r := Ok(rw.leftovers(html));
  }
}
