/** Text written to a OneNote page (packages/host/jarvis_host/onenote.py 69-71, 85-86, 167-180,
    350-359, 401-402): paragraphs as CDATA, grouped into payloads of a bounded size. */
module Sections {
  import opened Common

  predicate StartsWith(s: string, tag: string) { |s| >= |tag| && s[..|tag|] == tag }

  /** Does `]]>` stand at the start of `s`? */
  predicate CloseHere(s: string) { |s| >= 3 && s[0] == ']' && s[1] == ']' && s[2] == '>' }

  /** Where the first `]]>` begins; the length when there is none. */
  function FirstClose(s: string): (k: nat)
    ensures k == |s| || k + 3 <= |s|
  {
    if s == [] || CloseHere(s) then 0 else 1 + FirstClose(s[1..])
  }

  /** `str.replace`: the first `]]>`, then those behind it. */
  function ReplaceClose(text: string, put: string): string {
    var k := FirstClose(text);
    if k == |text| then text else text[..k] + (put + ReplaceClose(text[k + 3..], put))
  }

  /** A reader of consecutive sections that begin with `open`: the text of a section ends at the
      first `]]>`; reading stops where no section begins. The second part is what is left. */
  function Read(s: string, open: string): (r: Option<(string, string)>)
    requires open != []
    ensures r.Some? ==> |r.value.1| <= |s|
    decreases |s|
  {
    if !StartsWith(s, open) then Some(([], s))
    else
      var body := s[|open|..];
      var k := FirstClose(body);
      if k == |body| then None
      else
        match Read(body[k + 3..], open)
        case None => None
        case Some(more) => Some((body[..k] + more.0, more.1))
  }

  /** `put` closes a section after `]]` and begins another before `>`. */
  predicate Cuts(open: string, close: string, put: string) {
    open != [] && close == [']', ']', '>'] && put == [']', ']'] + (close + (open + ['>']))
  }

  lemma CloseFound(s: string)
    ensures FirstClose(s) < |s| ==> CloseHere(s[FirstClose(s)..])
  {
    if s != [] && !CloseHere(s) {
      CloseFound(s[1..]);
      assert s[FirstClose(s)..] == s[1..][FirstClose(s[1..])..];
    }
  }

  /** Text without `]]>`, closed by `]]>`, ends there and not before. */
  lemma {:induction false} ClosesAt(a: string, close: string, rest: string)
    requires FirstClose(a) == |a| && close == [']', ']', '>']
    ensures FirstClose(a + (close + rest)) == |a|
  {
    var s := a + (close + rest);
    if a != [] {
      assert s[1..] == a[1..] + (close + rest);
      ClosesAt(a[1..], close, rest);
    }
  }

  /** Text up to a first `]]>`, and its two brackets, hold no `]]>`. */
  lemma {:induction false} BracketsDoNotClose(text: string)
    requires FirstClose(text) < |text|
    ensures var a := text[..FirstClose(text) + 2]; FirstClose(a) == |a|
  {
    CloseFound(text);
    var k := FirstClose(text);
    var a := text[..k + 2];
    if k == 0 {
      assert a[1..][1..] == [];
      assert FirstClose(a[1..]) == 1 + FirstClose(a[1..][1..]);
    } else {
      BracketsDoNotClose(text[1..]);
      assert a[1..] == text[1..][..k - 1 + 2];
      assert !CloseHere(a);
    }
  }

  lemma SplitAtClose(s: string, k: nat)
    requires k + 3 <= |s| && CloseHere(s[k..])
    ensures s[..k + 2] == s[..k] + [']', ']'] && s[k + 2..] == ['>'] + s[k + 3..]
  {
    assert s[k] == s[k..][0] && s[k + 1] == s[k..][1] && s[k + 2] == s[k..][2];
  }

  lemma ReplaceBehind(after: string, put: string)
    ensures ReplaceClose(['>'] + after, put) == ['>'] + ReplaceClose(after, put)
  {
    var s, k := ['>'] + after, FirstClose(after);
    assert s[1..] == after;
    assert FirstClose(s) == 1 + k;
    if k < |after| {
      assert s[..k + 1] == ['>'] + after[..k] && s[k + 1 + 3..] == after[k + 3..];
      Regroup(['>'], after[..k], put + ReplaceClose(after[k + 3..], put));
    }
  }

  lemma Nest(a: string, close: string, open: string, b: string, tail: string)
    ensures (a + (close + (open + b))) + tail == a + (close + (open + (b + tail)))
  {
    Regroup(a, close + (open + b), tail);
    Regroup(close, open + b, tail);
    Regroup(open, b, tail);
  }

  /** A text with `]]>` in it: a section up to the brackets, then the sections of what is left. */
  lemma ReplaceCuts(text: string, open: string, close: string, put: string)
    requires FirstClose(text) < |text| && Cuts(open, close, put)
    ensures var k := FirstClose(text);
            ReplaceClose(text, put) == text[..k + 2] + (close + (open + ReplaceClose(text[k + 2..], put)))
  {
    var k, after, tail, e := ReplaceParts(text, put);
    CutAt(text, k, after, tail, e, open, close, put);
  }

  lemma ReplaceParts(text: string, put: string) returns (k: nat, after: string, tail: string, e: string)
    requires FirstClose(text) < |text|
    ensures k == FirstClose(text) && k + 3 <= |text| && CloseHere(text[k..])
    ensures e == ReplaceClose(text, put) && tail == ReplaceClose(text[k + 2..], put)
    ensures e == text[..k] + (put + after) && tail == ['>'] + after
  {
    k := FirstClose(text);
    after := ReplaceClose(text[k + 3..], put);
    CloseFound(text);
    ReplaceOnce(text, put);
    ReplaceTail(text, k, put);
    tail, e := ReplaceClose(text[k + 2..], put), ReplaceClose(text, put);
  }

  lemma CutAt(text: string, k: nat, after: string, tail: string, e: string, open: string, close: string, put: string)
    requires k + 3 <= |text| && CloseHere(text[k..]) && Cuts(open, close, put)
    requires e == text[..k] + (put + after) && tail == ['>'] + after
    ensures e == text[..k + 2] + (close + (open + tail))
  {
    SplitAtClose(text, k);
    CutIn(text[..k], after, e, open, close, put);
  }

  lemma ReplaceTail(text: string, k: nat, put: string)
    requires k + 3 <= |text| && CloseHere(text[k..])
    ensures ReplaceClose(text[k + 2..], put) == ['>'] + ReplaceClose(text[k + 3..], put)
  {
    SplitAtClose(text, k);
    ReplaceBehind(text[k + 3..], put);
  }

  lemma ReplaceOnce(text: string, put: string)
    requires FirstClose(text) < |text|
    ensures var k := FirstClose(text); ReplaceClose(text, put) == text[..k] + (put + ReplaceClose(text[k + 3..], put))
  {
  }

  lemma CutIn(x: string, after: string, e: string, open: string, close: string, put: string)
    requires Cuts(open, close, put) && e == x + (put + after)
    ensures e == (x + [']', ']']) + (close + (open + (['>'] + after)))
  {
    Nest([']', ']'], close, open, ['>'], after);
    Regroup(x, [']', ']'], close + (open + (['>'] + after)));
  }

  lemma SectionReads(a: string, more: string, open: string, close: string)
    requires FirstClose(a) == |a| && open != [] && close == [']', ']', '>']
    ensures Read(open + (a + (close + more)), open) ==
            match Read(more, open) case None => None case Some(r) => Some((a + r.0, r.1))
  {
    var body := a + (close + more);
    var s := open + body;
    assert s[..|open|] == open && s[|open|..] == body;
    ClosesAt(a, close, more);
    assert body[|a| + 3..] == more && body[..|a|] == a;
  }

  /** Reading a section and then the ones behind it. */
  lemma ReadsOn(e: string, a: string, eb: string, b: string, rest: string, open: string, close: string)
    requires open != [] && close == [']', ']', '>'] && FirstClose(a) == |a| && e == a + (close + (open + eb))
    requires Read(open + (eb + (close + rest)), open) == Some((b, rest))
    ensures Read(open + (e + (close + rest)), open) == Some((a + b, rest))
  {
    var tail := close + rest;
    Nest(a, close, open, eb, tail);
    SectionReads(a, open + (eb + tail), open, close);
  }

  lemma LastReads(text: string, rest: string, open: string, close: string)
    requires FirstClose(text) == |text| && open != [] && close == [']', ']', '>'] && !StartsWith(rest, open)
    ensures Read(open + (text + (close + rest)), open) == Some((text, rest))
  {
    SectionReads(text, rest, open, close);
    assert text + [] == text;
  }

  /** Whatever the text, its sections read back as the text and leave what follows them. */
  lemma {:induction false} SectionsReadBack(text: string, rest: string, open: string, close: string, put: string)
    requires Cuts(open, close, put) && !StartsWith(rest, open)
    ensures Read(open + (ReplaceClose(text, put) + (close + rest)), open) == Some((text, rest))
    decreases |text|
  {
    var k := FirstClose(text);
    if k == |text| {
      LastReads(text, rest, open, close);
    } else {
      var a, b := text[..k + 2], text[k + 2..];
      BracketsDoNotClose(text);
      ReplaceCuts(text, open, close, put);
      SectionsReadBack(b, rest, open, close, put);
      ReadsOn(ReplaceClose(text, put), a, ReplaceClose(b, put), b, rest, open, close);
      TakeDrop(text, k + 2);
    }
  }
}

/** The host's CDATA sections (section 2.7 of XML 1.0). */
module Cdata {
  import opened Common
  import opened Sections

  const CDATA_OPEN := "<![CDATA["
  const CDATA_CLOSE := "]]>"

  /** `_cdata`: every `]]>` is cut between `]]` and `>`, where one section ends and another begins. */
  function Escape(text: string): string {
    ReplaceClose(text, "]]]]><![CDATA[>")
  }

  function ReadSections(s: string): (r: Option<(string, string)>)
    ensures r.Some? ==> |r.value.1| <= |s|
  {
    Read(s, CDATA_OPEN)
  }

  lemma EscapeCuts()
    ensures Cuts(CDATA_OPEN, CDATA_CLOSE, "]]]]><![CDATA[>")
  {
    assert "]]]]><![CDATA[>" == [']', ']'] + (CDATA_CLOSE + (CDATA_OPEN + ['>']));
  }

  /** The round trip: whatever the text, reading its sections gives back the text and leaves what
      follows them. */
  lemma TextReadsBack(text: string, rest: string)
    requires !StartsWith(rest, CDATA_OPEN)
    ensures ReadSections(CDATA_OPEN + (Escape(text) + (CDATA_CLOSE + rest))) == Some((text, rest))
  {
    EscapeCuts();
    SectionsReadBack(text, rest, CDATA_OPEN, CDATA_CLOSE, "]]]]><![CDATA[>");
  }
}

/** Paragraphs, outlines and payloads. */
module OneNotePages {
  import opened Common
  import opened Sections
  import opened Cdata

  const OE_OPEN := "<one:OE><one:T>"
  const OE_CLOSE := "</one:T></one:OE>"
  const OUTLINE_OPEN := "<one:Outline><one:OEChildren>"
  const OUTLINE_CLOSE := "</one:OEChildren></one:Outline>"

  /** One paragraph holding `text`. */
  function Paragraph(text: string): string {
    OE_OPEN + CDATA_OPEN + Escape(text) + CDATA_CLOSE + OE_CLOSE
  }

  function Outline(parts: seq<string>): string {
    OUTLINE_OPEN + Concat(parts) + OUTLINE_CLOSE
  }

  /** A reader of paragraphs: the text of each, as long as another one begins. */
  function ReadParagraphs(s: string): (r: Option<(seq<string>, string)>)
    decreases |s|
  {
    if !StartsWith(s, OE_OPEN) then Some(([], s))
    else
      var read := ReadSections(s[|OE_OPEN|..]);
      if read.None? || !StartsWith(read.value.1, OE_CLOSE) then None
      else
        match ReadParagraphs(read.value.1[|OE_CLOSE|..])
        case None => None
        case Some(more) => Some(([read.value.0] + more.0, more.1))
  }

  /** A reader of one outline. */
  function ReadOutline(s: string): Option<seq<string>> {
    if !StartsWith(s, OUTLINE_OPEN) then None
    else
      var read := ReadParagraphs(s[|OUTLINE_OPEN|..]);
      if read.None? || read.value.1 != OUTLINE_CLOSE then None else Some(read.value.0)
  }

  function Paragraphs(texts: seq<string>): (r: seq<string>)
    ensures |r| == |texts| && forall i :: 0 <= i < |r| ==> r[i] == Paragraph(texts[i])
  {
    seq(|texts|, i requires 0 <= i < |texts| => Paragraph(texts[i]))
  }

  lemma ParagraphReads(text: string, rest: string)
    ensures ReadParagraphs(Paragraph(text) + rest) ==
            match ReadParagraphs(rest) case None => None case Some(r) => Some(([text] + r.0, r.1))
  {
    var s := Paragraph(text) + rest;
    var sections := CDATA_OPEN + (Escape(text) + (CDATA_CLOSE + (OE_CLOSE + rest)));
    assert s[..|OE_OPEN|] == OE_OPEN && s[|OE_OPEN|..] == sections;
    assert (OE_CLOSE + rest)[1] == '/';
    TextReadsBack(text, OE_CLOSE + rest);
    assert (OE_CLOSE + rest)[..|OE_CLOSE|] == OE_CLOSE && (OE_CLOSE + rest)[|OE_CLOSE|..] == rest;
  }

  lemma {:induction false} ParagraphsRead(texts: seq<string>)
    ensures ReadParagraphs(Concat(Paragraphs(texts)) + OUTLINE_CLOSE) == Some((texts, OUTLINE_CLOSE))
    decreases |texts|
  {
    if texts == [] {
      assert OUTLINE_CLOSE[1] == '/';
      assert Concat(Paragraphs(texts)) + OUTLINE_CLOSE == OUTLINE_CLOSE;
    } else {
      var parts := Paragraphs(texts);
      assert parts[1..] == Paragraphs(texts[1..]);
      Regroup(parts[0], Concat(parts[1..]), OUTLINE_CLOSE);
      ParagraphReads(texts[0], Concat(parts[1..]) + OUTLINE_CLOSE);
      ParagraphsRead(texts[1..]);
      assert [texts[0]] + texts[1..] == texts;
    }
  }

  /** An outline reads back as the paragraphs it was made of. */
  lemma OutlineReads(texts: seq<string>)
    ensures ReadOutline(Outline(Paragraphs(texts))) == Some(texts)
  {
    var s := Outline(Paragraphs(texts));
    assert s[..|OUTLINE_OPEN|] == OUTLINE_OPEN;
    assert s[|OUTLINE_OPEN|..] == Concat(Paragraphs(texts)) + OUTLINE_CLOSE;
    ParagraphsRead(texts);
  }

  // ---- batches ----

  function Size(parts: seq<string>): nat {
    if parts == [] then 0 else Size(parts[..|parts| - 1]) + |parts[|parts| - 1]|
  }

  /** A payload is within the bound unless it is a single fragment. */
  predicate Obeys(b: seq<string>, max: int) { |b| <= 1 || Size(b) <= max }

  predicate AllObey(split: seq<seq<string>>, max: int) {
    forall k :: 0 <= k < |split| ==> Obeys(split[k], max)
  }

  /** How far a payload that holds the first `n` fragments is extended. */
  function Extent(parts: seq<string>, n: nat, max: int): (r: nat)
    requires n <= |parts|
    ensures n <= r <= |parts|
    decreases |parts| - n
  {
    if n < |parts| && Size(parts[..n]) + |parts[n]| <= max then Extent(parts, n + 1, max) else n
  }

  function Greedy(parts: seq<string>, max: int): seq<seq<string>> {
    if parts == [] then []
    else
      var n := Extent(parts, 1, max);
      [parts[..n]] + Greedy(parts[n..], max)
  }

  lemma TakeTake<T>(s: seq<T>, n: nat, m: nat)
    requires n <= m <= |s|
    ensures s[..m][0..n] == s[..n]
  {
  }

  lemma SizeSnoc(parts: seq<string>, n: nat)
    requires n < |parts|
    ensures Size(parts[..n + 1]) == Size(parts[..n]) + |parts[n]|
  {
    assert parts[..n + 1][..n] == parts[..n];
  }

  /** It is the length of the payload's text. */
  lemma {:induction false} SizeIsLength(parts: seq<string>)
    ensures Size(parts) == |Concat(parts)|
  {
    if parts == [] {
    } else {
      var front, last := parts[..|parts| - 1], parts[|parts| - 1];
      SizeIsLength(front);
      ConcatSnoc(front, last);
      assert parts == front + [last];
    }
  }

  lemma SizeOneMore(parts: seq<string>, part: string)
    ensures Size(parts + [part]) == Size(parts) + |part|
  {
    assert (parts + [part])[..|parts|] == parts;
  }

  lemma {:induction false} SizeAppend(a: seq<string>, b: seq<string>)
    ensures Size(a + b) == Size(a) + Size(b)
    decreases |b|
  {
    if b == [] {
      assert a + b == a;
    } else {
      assert (a + b)[..|a + b| - 1] == a + b[..|b| - 1];
      SizeAppend(a, b[..|b| - 1]);
    }
  }

  lemma SizeOfPart(parts: seq<string>, i: nat, j: nat)
    requires i <= j <= |parts|
    ensures Size(parts[i..j]) <= Size(parts)
  {
    TakeDrop(parts, j);
    SizeAppend(parts[..j], parts[j..]);
    TakeDrop(parts[..j], i);
    SizeAppend(parts[..j][..i], parts[..j][i..]);
    SliceBothWays(parts, i, j);
  }

  lemma {:induction false} ExtentObeys(parts: seq<string>, n: nat, max: int)
    requires 1 <= n <= |parts| && Obeys(parts[..n], max)
    ensures Obeys(parts[..Extent(parts, n, max)], max)
    decreases |parts| - n
  {
    if n < |parts| && Size(parts[..n]) + |parts[n]| <= max {
      SizeSnoc(parts, n);
      ExtentObeys(parts, n + 1, max);
    }
  }

  /** No payload that obeys the rule is longer than the extent. */
  lemma {:induction false} ExtentReaches(parts: seq<string>, n: nat, m: nat, max: int)
    requires 1 <= n <= |parts| && m <= |parts| && Obeys(parts[..m], max)
    ensures m <= Extent(parts, n, max)
    decreases |parts| - n
  {
    if n < m {
      SizeSnoc(parts, n);
      SizeOfPart(parts[..m], 0, n + 1);
      TakeTake(parts, n + 1, m);
      ExtentReaches(parts, n + 1, m, max);
    }
  }

  /** Starting later never takes more payloads. */
  lemma {:induction false} LaterIsNoLonger(parts: seq<string>, j: nat, max: int)
    requires j <= |parts|
    ensures |Greedy(parts[j..], max)| <= |Greedy(parts, max)|
    decreases |parts|
  {
    if j == 0 {
      assert parts[0..] == parts;
    } else if j < |parts| {
      var g := Extent(parts, 1, max);
      var rest := parts[g..];
      if j < g {
        LaterReachesAsFar(parts, j, max);
        var k := j + Extent(parts[j..], 1, max) - g;
        LaterIsNoLonger(rest, k, max);
        BothGoOn(parts, j, g, rest, k, max);
      } else {
        LaterIsNoLonger(rest, j - g, max);
        DropDrop(parts, g, j);
        GreedyRest(parts, rest, max);
      }
    }
  }

  lemma BothGoOn(parts: seq<string>, j: nat, g: nat, rest: seq<string>, k: nat, max: int)
    requires j < g <= |parts| && g == Extent(parts, 1, max) && rest == parts[g..]
    requires k == j + Extent(parts[j..], 1, max) - g && k <= |rest|
    requires |Greedy(rest[k..], max)| <= |Greedy(rest, max)|
    ensures |Greedy(parts[j..], max)| <= |Greedy(parts, max)|
  {
    DropsMeet(parts, j, k + g - j, g);
    GreedyRest(parts, rest, max);
    GreedyRest(parts[j..], rest[k..], max);
  }

  lemma GreedyRest(parts: seq<string>, rest: seq<string>, max: int)
    requires parts != [] && rest == parts[Extent(parts, 1, max)..]
    ensures |Greedy(parts, max)| == 1 + |Greedy(rest, max)|
  {
  }

  lemma DropDrop<T>(s: seq<T>, g: nat, j: nat)
    requires g <= j <= |s|
    ensures s[g..][j - g..] == s[j..]
  {
  }

  lemma DropsMeet<T>(s: seq<T>, j: nat, h: nat, g: nat)
    requires j <= g <= j + h <= |s|
    ensures s[j..][h..] == s[g..][h - (g - j)..]
  {
  }

  lemma LaterReachesAsFar(parts: seq<string>, j: nat, max: int)
    requires parts != [] && j < Extent(parts, 1, max)
    ensures j + Extent(parts[j..], 1, max) >= Extent(parts, 1, max)
  {
    var g, late := Extent(parts, 1, max), parts[j..];
    ExtentObeys(parts, 1, max);
    SliceBothWays(parts, j, g);
    SizeOfPart(parts[..g], j, g);
    ExtentReaches(late, 1, g - j, max);
  }

  /** No split of the fragments in order that obeys the rule has fewer payloads. */
  lemma {:induction false} GreedyIsFewest(parts: seq<string>, split: seq<seq<string>>, max: int)
    requires Concat(split) == parts && AllObey(split, max)
    ensures |Greedy(parts, max)| <= |split|
    decreases |split|
  {
    if parts == [] {
    } else {
      var m := |split[0]|;
      var g := Extent(parts, 1, max);
      ConcatFirst(split);
      assert Obeys(split[0], max);
      ExtentReaches(parts, 1, m, max);
      assert forall k :: 0 <= k < |split[1..]| ==> split[1..][k] == split[k + 1];
      GreedyIsFewest(parts[m..], split[1..], max);
      LaterIsNoLonger(parts[m..], g - m, max);
      assert parts[m..][g - m..] == parts[g..];
    }
  }

  /** Every fragment is in one payload, in order, and only a fragment that is too large by itself
      exceeds the bound. */
  lemma {:induction false} GreedyKeepsAll(parts: seq<string>, max: int)
    ensures Concat(Greedy(parts, max)) == parts && AllObey(Greedy(parts, max), max)
    decreases |parts|
  {
    if parts == [] {
    } else {
      var n := Extent(parts, 1, max);
      var first, more := parts[..n], Greedy(parts[n..], max);
      ExtentObeys(parts, 1, max);
      GreedyKeepsAll(parts[n..], max);
      OneMoreFirst(first, more, max);
      TakeDrop(parts, n);
    }
  }

  lemma OneMoreFirst(first: seq<string>, more: seq<seq<string>>, max: int)
    requires Obeys(first, max) && AllObey(more, max)
    ensures Concat([first] + more) == first + Concat(more) && AllObey([first] + more, max)
  {
    assert ([first] + more)[1..] == more;
    assert forall k :: 0 < k <= |more| ==> ([first] + more)[k] == more[k - 1];
  }

  /** A payload begun with `current` goes on as the greedy split would. */
  predicate Begun(current: seq<string>, rest: seq<string>, max: int) {
    current != [] ==> Extent(current + rest, 1, max) == Extent(current + rest, |current|, max)
  }

  lemma FragmentFits(current: seq<string>, rest: seq<string>, max: int)
    requires rest != [] && Begun(current, rest, max)
    requires current == [] || Size(current) + |rest[0]| <= max
    ensures var next := current + [rest[0]];
            next + rest[1..] == current + rest && Begun(next, rest[1..], max)
  {
    assert rest == [rest[0]] + rest[1..];
    Regroup(current, [rest[0]], rest[1..]);
    assert (current + rest)[..|current|] == current;
  }

  lemma FragmentOverflows(current: seq<string>, rest: seq<string>, max: int)
    requires current != [] && Begun(current, rest, max) && (rest != [] ==> Size(current) + |rest[0]| > max)
    ensures Greedy(current + rest, max) == [current] + Greedy(rest, max)
  {
    assert (current + rest)[..|current|] == current && (current + rest)[|current|..] == rest;
  }

  /** What is packed, what has been begun and what is left make up the greedy split. */
  predicate Packed(out: seq<seq<string>>, current: seq<string>, rest: seq<string>, parts: seq<string>, max: int) {
    Begun(current, rest, max) && out + Greedy(current + rest, max) == Greedy(parts, max)
  }

  lemma PackedFlush(out: seq<seq<string>>, current: seq<string>, rest: seq<string>, parts: seq<string>, max: int)
    requires Packed(out, current, rest, parts, max)
    requires current != [] && (rest != [] ==> Size(current) + |rest[0]| > max)
    ensures Packed(out + [current], [], rest, parts, max)
  {
    FragmentOverflows(current, rest, max);
    Regroup(out, [current], Greedy(rest, max));
    assert [] + rest == rest;
  }

  lemma PackedTake(out: seq<seq<string>>, current: seq<string>, rest: seq<string>, parts: seq<string>, max: int)
    requires Packed(out, current, rest, parts, max)
    requires rest != [] && (current == [] || Size(current) + |rest[0]| <= max)
    ensures Packed(out, current + [rest[0]], rest[1..], parts, max)
  {
    FragmentFits(current, rest, max);
  }

  /** One fragment goes into the current payload or begins the next. */
  lemma PackedOneMore(out: seq<seq<string>>, current: seq<string>, rest: seq<string>, parts: seq<string>, max: int)
    requires Packed(out, current, rest, parts, max) && rest != []
    ensures var full := current != [] && Size(current) + |rest[0]| > max;
            && (full ==> Packed(out + [current], [] + [rest[0]], rest[1..], parts, max))
            && (!full ==> Packed(out, current + [rest[0]], rest[1..], parts, max))
  {
    if current != [] && Size(current) + |rest[0]| > max {
      PackedFlush(out, current, rest, parts, max);
      PackedTake(out + [current], [], rest, parts, max);
    } else {
      PackedTake(out, current, rest, parts, max);
    }
  }

  method Batch(parts: seq<string>, maxChars: int) returns (out: seq<seq<string>>)
    ensures out == if parts == [] then [[]] else Greedy(parts, maxChars)
  {
    out := [];
    var current: seq<string> := [];
    var size := 0;
    var i := 0;
    assert current + parts[i..] == parts;
    while i < |parts|
      invariant 0 <= i <= |parts| && size == Size(current) && (i > 0 ==> current != [])
      invariant Packed(out, current, parts[i..], parts, maxChars)
    {
      DropOne(parts, i);
      out, current, size := Pack(out, current, size, parts[i], maxChars, parts[i..], parts);
      i := i + 1;
    }
    assert parts[i..] == [];
    if current != [] {
      PackedFlush(out, current, [], parts, maxChars);
      out := out + [current];
    }
    if out == [] {
      out := [[]];
    }
  }

  /** One fragment. */
  method Pack(out0: seq<seq<string>>, current0: seq<string>, size0: int, part: string, maxChars: int,
              ghost rest: seq<string>, ghost parts: seq<string>)
    returns (out: seq<seq<string>>, current: seq<string>, size: int)
    requires rest != [] && part == rest[0] && size0 == Size(current0) && Packed(out0, current0, rest, parts, maxChars)
    ensures Packed(out, current, rest[1..], parts, maxChars) && size == Size(current) && current != []
  {
    out, current, size := out0, current0, size0;
    PackedOneMore(out, current, rest, parts, maxChars);
    if current != [] && size + |part| > maxChars {
      out, current, size := out + [current], [], 0;
    }
    SizeOneMore(current, part);
    current, size := current + [part], size + |part|;
  }

  /** A page written in several updates reads back as all its paragraphs, in order, whatever they
      hold and however they were grouped. */
  lemma {:induction false} PageReadsBack(texts: seq<string>, split: seq<seq<string>>)
    requires Concat(split) == Paragraphs(texts)
    ensures ReadUpdates(split) == Some(texts)
    decreases |split|
  {
    if split == [] {
    } else {
      var n := |split[0]|;
      ConcatFirst(split);
      ParagraphsSplit(texts, n);
      OutlineReads(texts[..n]);
      PageReadsBack(texts[n..], split[1..]);
      TakeDrop(texts, n);
    }
  }

  lemma ParagraphsSplit(texts: seq<string>, n: nat)
    requires n <= |texts|
    ensures Paragraphs(texts)[..n] == Paragraphs(texts[..n]) && Paragraphs(texts)[n..] == Paragraphs(texts[n..])
  {
  }

  function ReadUpdates(split: seq<seq<string>>): Option<seq<string>> {
    if split == [] then Some([])
    else
      var first, rest := ReadOutline(Outline(split[0])), ReadUpdates(split[1..]);
      if first.None? || rest.None? then None else Some(first.value + rest.value)
  }
}
