/** The greedy word wrap of the re-tiering report: content, width, and the fewest lines. */
module WordWrap {

  /** What `str.split` and `str.strip` take for white space. */
  predicate IsSpace(c: char) {
    c == ' ' || '\t' <= c <= '\r' || '\U{001C}' <= c <= '\U{001F}' || c == '\U{0085}' || c == '\U{00A0}'
    || c == '\U{1680}' || '\U{2000}' <= c <= '\U{200A}' || c == '\U{2028}' || c == '\U{2029}'
    || c == '\U{202F}' || c == '\U{205F}' || c == '\U{3000}'
  }

  /** The length of the word a text starts with. */
  function WordEnd(text: string): (n: nat)
    ensures n <= |text|
    ensures forall i :: 0 <= i < n ==> !IsSpace(text[i])
    ensures n < |text| ==> IsSpace(text[n])
  {
    if text == "" || IsSpace(text[0]) then 0 else 1 + WordEnd(text[1..])
  }

  /** `text.split()`. */
  function Split(text: string): (words: seq<string>)
    ensures AllWords(words)
    decreases |text|
  {
    if text == "" then []
    else if IsSpace(text[0]) then Split(text[1..])
    else [text[..WordEnd(text)]] + Split(text[WordEnd(text)..])
  }

  predicate IsWord(word: string) {
    word != "" && forall i :: 0 <= i < |word| ==> !IsSpace(word[i])
  }

  predicate AllWords(words: seq<string>) {
    forall w :: w in words ==> IsWord(w)
  }

  /** `text.strip()`. */
  function Strip(text: string): string
    decreases |text|
  {
    if text == "" then ""
    else if IsSpace(text[0]) then Strip(text[1..])
    else if IsSpace(text[|text| - 1]) then Strip(text[..|text| - 1])
    else text
  }

  /** A line: some words, one space apart. */
  function Join(words: seq<string>): string {
    if words == [] then ""
    else if |words| == 1 then words[0]
    else Join(words[..|words| - 1]) + " " + words[|words| - 1]
  }

  function JoinAll(groups: seq<seq<string>>): seq<string> {
    if groups == [] then [] else JoinAll(groups[..|groups| - 1]) + [Join(groups[|groups| - 1])]
  }

  function Flatten(groups: seq<seq<string>>): seq<string> {
    if groups == [] then [] else groups[0] + Flatten(groups[1..])
  }

  // ---- what the loop produces -----------------------------------------------------

  /** How many further words fit after a line of some length. */
  function Extend(length: nat, words: seq<string>, width: int): (n: nat)
    ensures n <= |words|
    decreases |words|
  {
    if words == [] || length + |words[0]| + 1 > width then 0
    else 1 + Extend(length + 1 + |words[0]|, words[1..], width)
  }

  /** First fit: every line takes as many of the words as it can. */
  function FirstFit(words: seq<string>, width: int): (groups: seq<seq<string>>)
    ensures words != [] ==> groups != []
    decreases |words|
  {
    if words == [] then []
    else
      var n := 1 + Extend(|words[0]|, words[1..], width);
      [words[..n]] + FirstFit(words[n..], width)
  }

  /** The first word is compared with an empty line as if a space came before it: when it leaves no room for
      that space, an empty line is put first. */
  function WrapGroups(words: seq<string>, width: int): seq<seq<string>> {
    (if words != [] && |words[0]| >= width then [[]] else []) + FirstFit(words, width)
  }

  lemma StripKeepsWord(word: string)
    requires IsWord(word)
    ensures Strip(" " + word) == word
  {
    assert (" " + word)[1..] == word;
  }

  lemma StripKeepsLine(line: string, word: string)
    requires line != "" && !IsSpace(line[0]) && IsWord(word)
    ensures Strip(line + " " + word) == line + " " + word
  {
  }

  lemma JoinMore(words: seq<string>, word: string)
    requires words != []
    ensures Join(words + [word]) == Join(words) + " " + word
    ensures |Join(words + [word])| == |Join(words)| + 1 + |word|
  {
    assert (words + [word])[..|words|] == words;
  }

  lemma {:induction false} JoinStartsWithWord(words: seq<string>)
    requires words != [] && AllWords(words)
    ensures Join(words) != "" && !IsSpace(Join(words)[0])
  {
    if |words| == 1 {
      assert IsWord(words[0]);
    } else {
      JoinStartsWithWord(words[..|words| - 1]);
    }
  }

  lemma JoinAllMore(groups: seq<seq<string>>, group: seq<string>)
    ensures JoinAll(groups + [group]) == JoinAll(groups) + [Join(group)]
  {
    assert (groups + [group])[..|groups|] == groups;
  }

  /** The line being filled, and what is left for it and for the lines to come. */
  ghost predicate Filling(words: seq<string>, width: int, done: seq<seq<string>>, start: nat, i: nat) {
    && start < i <= |words|
    && WrapGroups(words, width) == done + FirstFit(words[start..], width)
    && 1 + Extend(|words[start]|, words[start + 1..], width) == i - start
        + Extend(|Join(words[start..i])|, words[i..], width)
  }

  /** The next word goes on the line. */
  lemma Fills(words: seq<string>, width: int, done: seq<seq<string>>, start: nat, i: nat)
    requires Filling(words, width, done, start, i) && i < |words|
    requires |Join(words[start..i])| + |words[i]| + 1 <= width
    ensures Filling(words, width, done, start, i + 1)
    ensures Join(words[start..i + 1]) == Join(words[start..i]) + " " + words[i]
  {
    hide WrapGroups, FirstFit, Join;
    assert words[start..i + 1] == words[start..i] + [words[i]];
    JoinMore(words[start..i], words[i]);
    assert words[i..][1..] == words[i + 1..];
  }

  /** The line is full, or the words are out. */
  lemma Breaks(words: seq<string>, width: int, done: seq<seq<string>>, start: nat, i: nat)
    requires Filling(words, width, done, start, i)
    requires i < |words| ==> |Join(words[start..i])| + |words[i]| + 1 > width
    ensures WrapGroups(words, width) == done + [words[start..i]] + FirstFit(words[i..], width)
    ensures i < |words| ==> Filling(words, width, done + [words[start..i]], i, i + 1)
  {
    hide WrapGroups;
    assert words[start..][..i - start] == words[start..i];
    assert words[start..][i - start..] == words[i..];
    assert words[start..][1..] == words[start + 1..];
    if i < |words| {
      assert words[i..i + 1] == [words[i]];
    }
  }

  lemma NothingJoined()
    ensures JoinAll([]) == [] && Join([]) == ""
  {
  }

  lemma OneWord(words: seq<string>, i: nat)
    requires i < |words|
    ensures Join(words[i..i + 1]) == words[i]
  {
    assert words[i..i + 1] == [words[i]];
  }

  lemma NoWords(words: seq<string>, width: int)
    ensures FirstFit([], width) == [] && (words == [] ==> WrapGroups(words, width) == [])
    ensures words[|words|..] == []
  {
  }

  /** The first word starts the first line, behind an empty one when it leaves no room for a space. */
  lemma FirstLine(words: seq<string>, width: int)
    requires words != []
    ensures Filling(words, width, if |words[0]| + 1 > width then [[]] else [], 0, 1)
  {
    assert words[0..] == words;
    assert words[0..1] == [words[0]];
  }

  // ---- content ---------------------------------------------------------------------

  /** The words of several lines, one after the other. */
  function SplitAll(lines: seq<string>): seq<string> {
    if lines == [] then [] else Split(lines[0]) + SplitAll(lines[1..])
  }

  lemma WordEndOf(word: string, rest: string)
    requires IsWord(word) && (rest == "" || IsSpace(rest[0]))
    ensures WordEnd(word + rest) == |word|
  {
    assert forall i :: 0 <= i < |word| ==> (word + rest)[i] == word[i];
    assert rest != "" ==> (word + rest)[|word|] == rest[0];
  }

  /** Splitting a line gives back the words it was joined from. */
  lemma {:induction false} SplitJoin(words: seq<string>)
    requires AllWords(words)
    ensures Split(Join(words)) == words
  {
    if words != [] {
      var rest := words[1..];
      SplitJoin(rest);
      JoinFront(words);
      var tail := if rest == [] then "" else " " + Join(rest);
      assert Join(words) == words[0] + tail;
      WordEndOf(words[0], tail);
      assert IsWord(words[0]);
      assert (words[0] + tail)[..|words[0]|] == words[0] && (words[0] + tail)[|words[0]|..] == tail;
      if rest != [] {
        assert tail[1..] == Join(rest);
      }
      assert words == [words[0]] + rest;
    }
  }

  /** Join, read from the front. */
  lemma {:induction false} JoinFront(words: seq<string>)
    requires words != []
    ensures Join(words) == words[0] + (if |words| == 1 then "" else " " + Join(words[1..]))
  {
    if |words| > 1 {
      var front := words[..|words| - 1];
      JoinFront(front);
      assert front[1..] == words[1..][..|words[1..]| - 1];
      if |words| == 2 {
        assert words[1..] == [words[1]];
      }
    }
  }

  lemma {:induction false} LinesSplitBack(groups: seq<seq<string>>)
    requires AllWords(Flatten(groups))
    ensures SplitAll(JoinAll(groups)) == Flatten(groups)
  {
    if groups != [] {
      AllWordsParts(groups[0], Flatten(groups[1..]));
      SplitJoin(groups[0]);
      LinesSplitBack(groups[1..]);
      JoinAllFront(groups);
      assert JoinAll(groups)[1..] == JoinAll(groups[1..]);
    }
  }

  lemma AllWordsParts(a: seq<string>, b: seq<string>)
    requires AllWords(a + b)
    ensures AllWords(a) && AllWords(b)
  {
    assert forall w :: w in a ==> w in a + b;
    assert forall w :: w in b ==> w in a + b;
  }

  lemma {:induction false} JoinAllFront(groups: seq<seq<string>>)
    requires groups != []
    ensures JoinAll(groups) == [Join(groups[0])] + JoinAll(groups[1..])
  {
    if |groups| > 1 {
      var front := groups[..|groups| - 1];
      JoinAllFront(front);
      assert front[1..] == groups[1..][..|groups[1..]| - 1];
    }
  }

  lemma {:induction false} FirstFitKeepsWords(words: seq<string>, width: int)
    ensures Flatten(FirstFit(words, width)) == words
    decreases |words|
  {
    if words != [] {
      FirstFitKeepsWords(words[1 + Extend(|words[0]|, words[1..], width)..], width);
    }
  }

  lemma WrapKeepsWords(words: seq<string>, width: int)
    ensures Flatten(WrapGroups(words, width)) == words
  {
    FirstFitKeepsWords(words, width);
    var all := WrapGroups(words, width);
    if words != [] && |words[0]| >= width {
      assert all[1..] == FirstFit(words, width);
    } else {
      assert all == FirstFit(words, width);
    }
  }

  // ---- width ----------------------------------------------------------------------------

  ghost predicate Fit(groups: seq<seq<string>>, width: int) {
    forall g :: g in groups ==> |Join(g)| <= width
  }

  /** No word, or no line, is longer than the width. */
  predicate WordsFit(words: seq<string>, width: int) {
    forall w :: w in words ==> |w| <= width
  }

  lemma {:induction false} LinesOf(groups: seq<seq<string>>, width: int)
    ensures |JoinAll(groups)| == |groups|
    ensures WordsFit(JoinAll(groups), width) <==> Fit(groups, width)
  {
    if groups != [] {
      var front, last := groups[..|groups| - 1], groups[|groups| - 1];
      LinesOf(front, width);
      assert groups == front + [last];
    }
  }

  lemma {:induction false} JoinLength(a: seq<string>, b: seq<string>)
    ensures |Join(a + b)| == |Join(a)| + |Join(b)| + (if a != [] && b != [] then 1 else 0)
    decreases |b|
  {
    if b == [] {
      assert a + b == a;
    } else if a == [] {
      assert a + b == b;
    } else {
      var front := b[..|b| - 1];
      JoinLength(a, front);
      assert (a + b)[..|a + b| - 1] == a + front;
      if front == [] {
        assert a + front == a;
      }
    }
  }

  /** A line is filled without overflowing. */
  lemma {:induction false} ExtendFits(line: seq<string>, words: seq<string>, width: int)
    requires line != [] && |Join(line)| <= width
    ensures |Join(line + words[..Extend(|Join(line)|, words, width)])| <= width
    decreases |words|
  {
    var n := Extend(|Join(line)|, words, width);
    if n == 0 {
      assert line + words[..0] == line;
    } else {
      JoinMore(line, words[0]);
      ExtendFits(line + [words[0]], words[1..], width);
      assert line + [words[0]] + words[1..][..n - 1] == line + words[..n];
    }
  }

  /** No line could have taken one word more. */
  lemma {:induction false} ExtendMaximal(line: seq<string>, words: seq<string>, width: int, k: nat)
    requires line != [] && k <= |words| && |Join(line + words[..k])| <= width
    ensures k <= Extend(|Join(line)|, words, width)
    decreases k
  {
    if k > 0 {
      var longer := line + [words[0]];
      assert line + words[..k] == longer + words[1..][..k - 1];
      JoinMore(line, words[0]);
      JoinLength(longer, words[1..][..k - 1]);
      ExtendMaximal(longer, words[1..], width, k - 1);
    }
  }

  lemma {:induction false} FirstFitFits(words: seq<string>, width: int)
    requires WordsFit(words, width)
    ensures Fit(FirstFit(words, width), width)
    decreases |words|
  {
    if words != [] {
      var n := 1 + Extend(|words[0]|, words[1..], width);
      ExtendFits([words[0]], words[1..], width);
      assert [words[0]] + words[1..][..n - 1] == words[..n];
      FirstFitFits(words[n..], width);
    }
  }

  lemma {:induction false} LongWordOverflows(groups: seq<seq<string>>, width: int, w: string)
    requires Fit(groups, width) && w in Flatten(groups)
    ensures |w| <= width
  {
    if w in groups[0] {
      var i :| 0 <= i < |groups[0]| && groups[0][i] == w;
      var g := groups[0];
      JoinLength(g[..i], g[i..]);
      JoinLength([w], g[i + 1..]);
      assert g[..i] + g[i..] == g && [w] + g[i + 1..] == g[i..];
      assert g in groups;
    } else {
      LongWordOverflows(groups[1..], width, w);
    }
  }

  /** All lines keep to the width exactly when all words do. */
  lemma LinesFitIff(words: seq<string>, width: int)
    requires AllWords(words)
    ensures Fit(WrapGroups(words, width), width) <==> WordsFit(words, width)
  {
    WrapKeepsWords(words, width);
    if Fit(WrapGroups(words, width), width) {
      forall w | w in words
        ensures |w| <= width
      {
        LongWordOverflows(WrapGroups(words, width), width, w);
      }
    }
    if WordsFit(words, width) {
      FirstFitFits(words, width);
      if words != [] {
        assert words[0] in words;
      }
    }
  }

  // ---- fewest lines ------------------------------------------------------------------------

  /** The lines without their first words: as many lines, none longer. */
  lemma {:induction false} DropWords(groups: seq<seq<string>>, width: int, d: nat) returns (less: seq<seq<string>>)
    requires Fit(groups, width) && d <= |Flatten(groups)|
    ensures |less| == |groups| && Flatten(less) == Flatten(groups)[d..] && Fit(less, width)
  {
    if groups == [] {
      less := [];
    } else {
      var g := groups[0];
      var k := if d <= |g| then d else |g|;
      assert g in groups;
      JoinLength(g[..k], g[k..]);
      assert g[..k] + g[k..] == g;
      var rest := DropWords(groups[1..], width, d - k);
      less := [g[k..]] + rest;
      assert less[1..] == rest;
    }
  }

  /** First fit takes no more lines than any other way to break the words, in their order, into lines that
      keep to the width: its first line takes at least as much, and the rest is no worse off for that. */
  lemma {:induction false} FirstFitIsShortest(words: seq<string>, width: int, other: seq<seq<string>>)
    requires Flatten(other) == words && Fit(other, width)
    ensures |FirstFit(words, width)| <= |other|
    decreases |other|
  {
    if words != [] {
      var g, rest := other[0], other[1..];
      if g == [] {
        FirstFitIsShortest(words, width, rest);
      } else {
        var n := 1 + Extend(|words[0]|, words[1..], width);
        assert g in other && g == words[..|g|];
        assert [words[0]] + words[1..][..|g| - 1] == g;
        ExtendMaximal([words[0]], words[1..], width, |g| - 1);
        var less := DropWords(rest, width, n - |g|);
        assert Flatten(less) == words[n..];
        FirstFitIsShortest(words[n..], width, less);
      }
    }
  }

  /** No way to break the words into lines that keep to the width takes fewer than `count`. */
  ghost predicate Shortest(count: nat, words: seq<string>, width: int) {
    forall other :: Flatten(other) == words && Fit(other, width) ==> count <= |other|
  }

  /** When all words fit, the wrap has the fewest lines of all exactly when the first word leaves room for one
      more character; a first word as long as the line costs an empty line too many. */
  lemma WrapIsShortestIff(words: seq<string>, width: int)
    requires WordsFit(words, width)
    ensures Shortest(|WrapGroups(words, width)|, words, width) <==> words == [] || |words[0]| < width
  {
    if words == [] || |words[0]| < width {
      forall other | Flatten(other) == words && Fit(other, width)
        ensures |WrapGroups(words, width)| <= |other|
      {
        FirstFitIsShortest(words, width, other);
      }
    } else {
      FirstFitKeepsWords(words, width);
      FirstFitFits(words, width);
      assert !Shortest(|WrapGroups(words, width)|, words, width) by {
        assert |FirstFit(words, width)| < |WrapGroups(words, width)|;
      }
    }
  }

  lemma {:induction false} FirstFitLinesNotEmpty(words: seq<string>, width: int)
    ensures forall g :: g in FirstFit(words, width) ==> g != []
    decreases |words|
  {
    if words != [] {
      FirstFitLinesNotEmpty(words[1 + Extend(|words[0]|, words[1..], width)..], width);
    }
  }

  /** Only the first line can be empty, and it is exactly when the first word is as long as the line or longer. */
  lemma EmptyLineIff(words: seq<string>, width: int, k: nat)
    requires k < |WrapGroups(words, width)|
    ensures WrapGroups(words, width)[k] == [] <==> k == 0 && |words[0]| >= width
  {
    FirstFitLinesNotEmpty(words, width);
    var fits := FirstFit(words, width);
    assert forall j :: 0 <= j < |fits| ==> fits[j] in fits;
  }

  // ---- the loop -----------------------------------------------------------------------------

  /** `_wrap`. */
  method Wrap(text: string, width: int) returns (lines: seq<string>)
    ensures lines == JoinAll(WrapGroups(Split(text), width))
    ensures SplitAll(lines) == Split(text)
    ensures WordsFit(lines, width) <==> WordsFit(Split(text), width)
    ensures WordsFit(Split(text), width)
            ==> (Shortest(|lines|, Split(text), width) <==> Split(text) == [] || |Split(text)[0]| < width)
  {
    hide WrapGroups, FirstFit, Strip, Split, Extend, Join, JoinAll, SplitAll, Flatten, Fit, WordsFit, Shortest;
    var words := Split(text);
    var current := "";
    lines := [];
    ghost var done: seq<seq<string>> := [];
    ghost var start := 0;
    NothingJoined();
    for i := 0 to |words|
      invariant i == 0 ==> current == "" && done == [] && start == 0
      invariant i > 0 ==> Filling(words, width, done, start, i) && current == Join(words[start..i])
      invariant lines == JoinAll(done)
    {
      var word := words[i];
      if |current| + |word| + 1 > width {
        JoinAllMore(done, if i == 0 then [] else words[start..i]);
        lines := lines + [current];
        if i == 0 {
          FirstLine(words, width);
          assert done + [[]] == [[]];
          done := done + [[]];
        } else {
          Breaks(words, width, done, start, i);
          done := done + [words[start..i]];
        }
        start := i;
        current := word;
        OneWord(words, i);
      } else {
        if i == 0 {
          FirstLine(words, width);
          assert current + " " + word == " " + word;
          StripKeepsWord(word);
          OneWord(words, i);
        } else {
          Fills(words, width, done, start, i);
          JoinStartsWithWord(words[start..i]);
          StripKeepsLine(current, word);
        }
        current := Strip(current + " " + word);
      }
    }
    NoWords(words, width);
    if |words| > 0 {
      assert words[start..|words|] == words[start..];
      JoinStartsWithWord(words[start..]);
      Breaks(words, width, done, start, |words|);
      JoinAllMore(done, words[start..]);
      assert WrapGroups(words, width) == done + [words[start..]];
    }
    if current != "" {
      lines := lines + [current];
    }
    WrapKeepsWords(words, width);
    LinesSplitBack(WrapGroups(words, width));
    LinesOf(WrapGroups(words, width), width);
    LinesFitIff(words, width);
    if WordsFit(words, width) {
      WrapIsShortestIff(words, width);
    }
  }
}
