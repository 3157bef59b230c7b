/** The demo application: numbers read from standard input go through a tee;
    one copy gets 8 added to it, the other copy is added back to that result
    by a joining adder, and each sum is printed on its own line. All blocks
    have one element, so every input number `v` comes out as `(v + 8) + v`.
    This module models the software build of the pipeline (without the FPGA):
    its per-block functions, the text conversions and the input loop. */
module DemoApp {
  import opened CText
  import opened DyploQueue
  import opened SoftwareProcesses

  /** `number_to_add`, the constant of the adder stage. */
  const NumberToAdd: int := 8
  /** The block size every stage of the demo uses. */
  const BlockSize: nat := 1
  /** The capacity, in elements, of every software queue of the demo. */
  const QueueCapacity: nat := 2

  // ---------------------------------------------------------------------
  // The per-block functions

  /** A stream with `raise` added to each element. */
  function AddConstant(s: seq<int>, raise: int): (r: seq<int>)
    ensures |r| == |s|
    ensures forall i :: 0 <= i < |s| ==> r[i] - raise == s[i]
  {
    seq(|s|, i requires 0 <= i < |s| => s[i] + raise)
  }

  /** `process_block_add_constant<T, raise, blocksize>(dest, src)`: element by
      element, `dest[i] = src[i] + raise`. `dest` and `src` may be the same
      buffer: each element is read before it is overwritten. */
  method ProcessBlockAddConstant(dest: array<int>, src: array<int>, raise: int, blocksize: nat)
    requires blocksize <= dest.Length && blocksize <= src.Length
    modifies dest
    ensures dest[..blocksize] == AddConstant(old(src[..blocksize]), raise)
    ensures dest[blocksize..] == old(dest[blocksize..])
  {
    ghost var original := src[..];
    ghost var before := dest[..];
    for i := 0 to blocksize
      invariant forall k :: 0 <= k < i ==> dest[k] == original[k] + raise
      invariant forall k :: i <= k < src.Length ==> src[k] == original[k]
      invariant forall k :: blocksize <= k < dest.Length ==> dest[k] == before[k]
    {
      dest[i] := src[i] + raise;
    }
  }

  /** What the software branch computes from the tee's stream: the adder's
      output joined element-wise with the untouched copy. */
  function SoftwareBranch(values: seq<int>): (r: seq<int>)
    ensures |r| == |values|
  {
    ZipSum(AddConstant(values, NumberToAdd), values)
  }

  /** Every number comes out doubled plus 8. */
  lemma SoftwareBranchDoubles(values: seq<int>)
    ensures forall i :: 0 <= i < |values| ==> SoftwareBranch(values)[i] == 2 * values[i] + NumberToAdd
  {
    var added := AddConstant(values, NumberToAdd);
    forall i | 0 <= i < |values|
      ensures SoftwareBranch(values)[i] == 2 * values[i] + NumberToAdd
    {
      assert added[i] == values[i] + NumberToAdd;
    }
  }

  /** The pipeline composes: if everything the join has read from its left
      input is a prefix of what the adder made of the tee's stream `values`,
      and everything it has read from its right input is a prefix of `values`
      itself (each queue hands out elements in the order they were written),
      then the join's output so far is the software branch of that prefix. */
  lemma {:induction false} JoinOutputIsSoftwareBranch(
    values: seq<int>, joinLeft: seq<int>, joinRight: seq<int>, joinSent: seq<int>)
    requires joinLeft <= AddConstant(values, NumberToAdd)
    requires joinRight <= values
    requires |joinLeft| == |joinRight| && joinSent == ZipSum(joinLeft, joinRight)
    ensures |joinSent| <= |values|
    ensures joinSent == SoftwareBranch(values[..|joinSent|])
  {
    var n := |joinSent|;
    var prefix := values[..n];
    forall i | 0 <= i < n
      ensures joinSent[i] == SoftwareBranch(prefix)[i]
    {
      assert joinLeft[i] == AddConstant(values, NumberToAdd)[i] == values[i] + NumberToAdd;
      assert joinRight[i] == values[i] == prefix[i];
      assert AddConstant(prefix, NumberToAdd)[i] == prefix[i] + NumberToAdd;
    }
  }

  /** The right-hand channel of the software build, between steps of its
      threads: the queue `q` connects the tee's right output to the join's
      right input; what the tee has committed to it is what the join has
      released from it followed by what it still holds; and the tee's right
      stream is a prefix of its left one, the stream the adder receives. */
  ghost predicate RightChannel(tee: TeeProcess<int>, q: BlockQueue<int>, join: JoiningAddProcess)
    reads tee, q, join
  {
    && tee.outputRight == q && join.inputRight == q
    && tee.sentRight == join.consumedRight + q.contents
    && tee.sentRight <= tee.sentLeft
  }

  /** The tee and the join share only the right channel's queue: no other
      endpoint of one is an endpoint of the other. */
  ghost predicate ShareOnlyRight(tee: TeeProcess<int>, join: JoiningAddProcess)
    reads tee, join
  {
    && {join.inputLeft, join.output} !! {tee.input, tee.outputLeft, tee.outputRight}
    && {tee.input, tee.outputLeft} !! {join.inputLeft, join.inputRight, join.output}
  }

  /** A step of the tee thread keeps the right channel, and leaves the join's
      side of the shared queue, and so the join's invariant, as they were. */
  method StepTee(tee: TeeProcess<int>, q: BlockQueue<int>, join: JoiningAddProcess)
    returns (outcome: Outcome)
    requires tee.Valid() && tee.worker == Running && RightChannel(tee, q, join)
    requires join.Valid() && ShareOnlyRight(tee, join)
    modifies tee, tee.input, tee.outputLeft, tee.outputRight
    ensures tee.Valid() && RightChannel(tee, q, join)
    ensures join.Valid() && ShareOnlyRight(tee, join)
    ensures tee.input == old(tee.input) && tee.outputLeft == old(tee.outputLeft)
    ensures outcome == old(tee.OutcomeFrom(tee.pc))
    ensures tee.worker == (if outcome.InterruptedAt? then Finished else Running)
    ensures q.ReaderUnchanged()
  {
    var calls;
    outcome, calls := tee.Step();
  }

  /** A step of the join thread keeps the right channel, and leaves the
      tee's side of the shared queue, and so the tee's invariant, as they
      were. */
  method StepJoin(tee: TeeProcess<int>, q: BlockQueue<int>, join: JoiningAddProcess)
    returns (outcome: Outcome)
    requires join.Valid() && join.worker == Running && RightChannel(tee, q, join)
    requires tee.Valid() && ShareOnlyRight(tee, join)
    modifies join, join.inputLeft, join.inputRight, join.output
    ensures join.Valid() && RightChannel(tee, q, join)
    ensures tee.Valid() && ShareOnlyRight(tee, join)
    ensures join.inputLeft == old(join.inputLeft) && join.output == old(join.output)
    ensures outcome == old(join.OutcomeFrom(join.pc))
    ensures join.worker == (if outcome.InterruptedAt? then Finished else Running)
    ensures q.WriterUnchanged()
  {
    ghost var released, held := join.consumedRight, q.contents;
    var calls;
    outcome, calls := join.Step();
    if outcome.BlockMoved? {
      assert released + held == (released + held[..join.blocksize]) + held[join.blocksize..];
    }
  }

  /** The tee and the join threads run concurrently; `schedule` picks, turn
      by turn, which of them takes the next step (`true` for the tee), and a
      thread that has left its loop takes no more steps. Whatever the
      interleaving, both invariants and the right channel are kept, the
      join's right input stays a prefix of the stream the tee sends the
      adder, and, when the left input is a prefix of what the adder made of
      that stream, the join's output is the software branch of it. */
  method RunTeeAndJoin(tee: TeeProcess<int>, q: BlockQueue<int>, join: JoiningAddProcess, schedule: seq<bool>)
    requires tee.Valid() && join.Valid() && RightChannel(tee, q, join) && ShareOnlyRight(tee, join)
    modifies tee, tee.input, tee.outputLeft, q, join, join.inputLeft, join.output
    ensures tee.Valid() && join.Valid() && RightChannel(tee, q, join) && ShareOnlyRight(tee, join)
    ensures tee.input == old(tee.input) && tee.outputLeft == old(tee.outputLeft)
    ensures join.inputLeft == old(join.inputLeft) && join.output == old(join.output)
    ensures join.consumedRight <= tee.sentLeft
    ensures join.worker == Running && join.consumedLeft <= AddConstant(tee.sentLeft, NumberToAdd) ==>
      join.sent == SoftwareBranch(tee.sentLeft[..|join.sent|])
  {
    for turn := 0 to |schedule|
      invariant tee.Valid() && join.Valid() && RightChannel(tee, q, join) && ShareOnlyRight(tee, join)
      invariant tee.input == old(tee.input) && tee.outputLeft == old(tee.outputLeft)
      invariant join.inputLeft == old(join.inputLeft) && join.output == old(join.output)
    {
      if schedule[turn] && tee.worker == Running {
        var _ := StepTee(tee, q, join);
      } else if !schedule[turn] && join.worker == Running {
        var _ := StepJoin(tee, q, join);
      }
    }
    assert join.consumedRight <= tee.sentRight;
    if join.worker == Running && join.consumedLeft <= AddConstant(tee.sentLeft, NumberToAdd) {
      SoftwareBranchSoFar(tee, q, join);
    }
  }

  /** While the join runs on a right channel from the tee, what it has
      read on its right input is a prefix of the stream the tee sent the
      adder; so if its left input is a prefix of what the adder made of that
      stream, its output so far is the software branch of a prefix of it. */
  lemma SoftwareBranchSoFar(tee: TeeProcess<int>, q: BlockQueue<int>, join: JoiningAddProcess)
    requires RightChannel(tee, q, join) && join.Valid() && join.worker == Running
    requires join.consumedLeft <= AddConstant(tee.sentLeft, NumberToAdd)
    ensures join.consumedRight <= tee.sentLeft
    ensures |join.sent| <= |tee.sentLeft|
    ensures join.sent == SoftwareBranch(tee.sentLeft[..|join.sent|])
  {
    assert join.consumedRight <= tee.sentRight;
    JoinOutputIsSoftwareBranch(tee.sentLeft, join.consumedLeft, join.consumedRight, join.sent);
  }

  // ---------------------------------------------------------------------
  // Text conversions

  /** The digits of `s`, in order, every other character dropped. */
  function DigitsOf(s: string): (d: string)
    ensures AllDigits(d) && |d| <= |s|
  {
    if s == [] then []
    else DigitsOf(s[..|s| - 1]) + (if IsDigit(s[|s| - 1]) then [s[|s| - 1]] else [])
  }

  /** Keeping the digits of a concatenation keeps the digits of each part. */
  lemma {:induction false} DigitsOfAppend(a: string, b: string)
    ensures DigitsOf(a + b) == DigitsOf(a) + DigitsOf(b)
    decreases |b|
  {
    if b == [] {
      assert a + b == a;
    } else {
      var c := b[|b| - 1];
      assert (a + b)[..|a + b| - 1] == a + b[..|b| - 1];
      DigitsOfAppend(a, b[..|b| - 1]);
    }
  }

  /** A string of digits is kept whole. */
  lemma {:induction false} DigitsOfDigits(s: string)
    requires AllDigits(s)
    ensures DigitsOf(s) == s
  {
    if s != [] {
      DigitsOfDigits(s[..|s| - 1]);
    }
  }

  /** Every digit of `s` is kept, and nothing else: the digits come out with
      the same number of each digit character as in `s`. */
  lemma {:induction false} DigitsOfCounts(s: string, c: char)
    ensures multiset(DigitsOf(s))[c] == (if IsDigit(c) then multiset(s)[c] else 0)
  {
    if s != [] {
      var init := s[..|s| - 1];
      assert s == init + [s[|s| - 1]];
      DigitsOfCounts(init, c);
    }
  }

  /** What `string_to_int` returns: `atoi` of the digits of the word. */
  function ParsedValue(src: string): (v: int)
    ensures v == DecimalValue(DigitsOf(src)) && v >= 0
  {
    AtoiOfDigits(DigitsOf(src));
    Atoi(DigitsOf(src))
  }

  /** `string_to_int(src)`: keep the digits of `src`, then `atoi` them. The
      result is never negative; a sign or any other non-digit character is
      dropped, and a word without digits gives 0. */
  method StringToInt(src: string) returns (result: int)
    ensures result == ParsedValue(src)
    ensures result == DecimalValue(DigitsOf(src)) && result >= 0
    ensures (forall i :: 0 <= i < |src| ==> !IsDigit(src[i])) ==> result == 0
  {
    var srcDigits := "";
    for i := 0 to |src|
      invariant srcDigits == DigitsOf(src[..i])
    {
      assert src[..i + 1][..i] == src[..i];
      if IsDigit(src[i]) {
        srcDigits := srcDigits + [src[i]];
      }
    }
    assert src[..|src|] == src;
    result := Atoi(srcDigits);
    AtoiOfDigits(srcDigits);
    if forall i :: 0 <= i < |src| ==> !IsDigit(src[i]) {
      NoDigitsGiveEmpty(src);
    }
  }

  lemma {:induction false} NoDigitsGiveEmpty(s: string)
    requires forall i :: 0 <= i < |s| ==> !IsDigit(s[i])
    ensures DigitsOf(s) == []
  {
    if s != [] {
      NoDigitsGiveEmpty(s[..|s| - 1]);
    }
  }

  /** `string_to_int` reads back a number the program printed, except for its
      sign: the minus sign is not a digit, so "-1" gives 1. */
  lemma ParsedValueOfFormat(n: int)
    ensures ParsedValue(FormatInt(n)) == (if n < 0 then -n else n)
  {
    var m := if n < 0 then -n else n;
    var d := FormatNat(m);
    ParsedValueOfDigits(d);
    DecimalValueOfFormat(m);
    if n < 0 {
      assert FormatInt(n) == "-" + d;
    }
  }

  /** A string of digits parses to its value, with or without a minus sign
      in front. */
  lemma ParsedValueOfDigits(d: string)
    requires AllDigits(d)
    ensures ParsedValue(d) == DecimalValue(d)
    ensures ParsedValue("-" + d) == DecimalValue(d)
  {
    DigitsOfDigits(d);
    AtoiOfDigits(d);
    SignDropped(d);
  }

  lemma SignDropped(s: string)
    ensures DigitsOf("-" + s) == DigitsOf(s)
  {
    assert DigitsOf("-") == [];
    DigitsOfAppend("-", s);
  }

  /** `display_int(src)`: `std::cout << *src << std::endl`. */
  function DisplayInt(src: seq<int>): (line: string)
    requires |src| >= 1
    ensures line != [] && line[|line| - 1] == '\n'
  {
    FormatInt(src[0]) + "\n"
  }

  /** A displayed line reads back, with `atoi`, as the number displayed. */
  lemma DisplayRoundTrip(src: seq<int>)
    requires |src| >= 1
    ensures Atoi(DisplayInt(src)) == src[0]
  {
    AtoiOfFormat(src[0], "\n");
  }

  // ---------------------------------------------------------------------
  // The input loop

  /** The words the loop in `main` pushes, as written: read a word, stop as
      soon as the read has set eofbit, push otherwise. A last word that is
      not followed by white space sets eofbit and is dropped. */
  function WordsAsWritten(input: string): (ws: seq<string>)
    ensures |ws| <= |input|
    decreases |input|
  {
    var x := ExtractWord(input);
    if x.eof then [] else [x.word] + WordsAsWritten(x.rest)
  }

  /** The words of `input` as `while (std::cin >> line)` reads them: every
      word, the last one included, until a read finds no word. */
  function Words(input: string): (ws: seq<string>)
    ensures |ws| <= |input|
    decreases |input|
  {
    var x := ExtractWord(input);
    if x.word == [] then [] else [x.word] + Words(x.rest)
  }

  /** Words written one per line, each followed by a newline. */
  function Lines(ws: seq<string>): string {
    if ws == [] then [] else ws[0] + "\n" + Lines(ws[1..])
  }

  predicate AreWords(ws: seq<string>) {
    forall i :: 0 <= i < |ws| ==> ws[i] != [] && NoSpaces(ws[i])
  }

  /** After a word that white space follows, both loops go on reading after
      it. */
  lemma WordsAfterWord(w: string, rest: string)
    requires w != [] && NoSpaces(w)
    requires rest != [] && IsSpace(rest[0])
    ensures Words(w + rest) == [w] + Words(rest)
    ensures WordsAsWritten(w + rest) == [w] + WordsAsWritten(rest)
  {
    ExtractLeadingWord(w, rest);
  }

  /** Both loops skip leading white space. */
  lemma WordsAfterSpace(c: char, rest: string)
    requires IsSpace(c)
    ensures Words([c] + rest) == Words(rest)
    ensures WordsAsWritten([c] + rest) == WordsAsWritten(rest)
  {
    ExtractAfterSpace(c, rest);
  }

  // Proof helpers, not properties of the program: facts about sequences of
  // any element type and one-step unfoldings of `Lines`, `Words` and
  // `WordsAsWritten`. Stated generically or on their own, they spare the
  // verifier from comparing sequences of strings element by element,
  // character by character.

  lemma ConsAppend<T>(s: seq<T>, t: seq<T>)
    requires s != []
    ensures [s[0]] + (s[1..] + t) == s + t
  {
    assert s == [s[0]] + s[1..];
  }

  lemma ConsTail<T>(x: T, t: seq<T>)
    ensures ([x] + t)[0] == x && ([x] + t)[1..] == t
  {
  }

  lemma AppendAssoc<T>(a: seq<T>, b: seq<T>, c: seq<T>)
    ensures a + (b + c) == (a + b) + c
  {
  }

  lemma EmptyAppend<T>(s: seq<T>, t: seq<T>)
    requires s == []
    ensures s + t == t && t + s == t
  {
  }

  lemma LinesStep(ws: seq<string>, tail: string)
    requires ws != []
    ensures Lines(ws) + tail == ws[0] + ("\n" + (Lines(ws[1..]) + tail))
  {
  }

  lemma WordsOfLinesStep(ws: seq<string>, tail: string)
    requires AreWords(ws) && ws != []
    requires Words(Lines(ws[1..]) + tail) == ws[1..] + Words(tail)
    ensures Words(Lines(ws) + tail) == ws + Words(tail)
  {
    var rest := Lines(ws[1..]) + tail;
    LinesStep(ws, tail);
    WordsAfterWord(ws[0], "\n" + rest);
    WordsAfterSpace('\n', rest);
    ConsAppend(ws, Words(tail));
  }

  lemma WordsAsWrittenOfLinesStep(ws: seq<string>, tail: string)
    requires AreWords(ws) && ws != []
    requires WordsAsWritten(Lines(ws[1..]) + tail) == ws[1..] + WordsAsWritten(tail)
    ensures WordsAsWritten(Lines(ws) + tail) == ws + WordsAsWritten(tail)
  {
    var rest := Lines(ws[1..]) + tail;
    LinesStep(ws, tail);
    WordsAfterWord(ws[0], "\n" + rest);
    WordsAfterSpace('\n', rest);
    ConsAppend(ws, WordsAsWritten(tail));
  }

  /** Reading words written one per line gives them back, in both forms of
      the loop, whatever follows them. */
  lemma {:induction false} ReadLines(ws: seq<string>, tail: string)
    requires AreWords(ws)
    ensures Words(Lines(ws) + tail) == ws + Words(tail)
    ensures WordsAsWritten(Lines(ws) + tail) == ws + WordsAsWritten(tail)
  {
    if ws == [] {
      assert Lines(ws) + tail == tail;
      assert ws + Words(tail) == Words(tail) by { EmptyAppend(ws, Words(tail)); }
      assert ws + WordsAsWritten(tail) == WordsAsWritten(tail) by { EmptyAppend(ws, WordsAsWritten(tail)); }
    } else {
      ReadLines(ws[1..], tail);
      WordsOfLinesStep(ws, tail);
      WordsAsWrittenOfLinesStep(ws, tail);
    }
  }

  /** Neither loop reads a word from an empty input. */
  lemma NoWordsInEmptyInput()
    ensures Words([]) == [] && WordsAsWritten([]) == []
  {
    assert ExtractWord([]).word == [] && ExtractWord([]).eof;
  }

  /** When every line ends with a newline, both loops push every word. */
  lemma TerminatedInputIsRead(ws: seq<string>)
    requires AreWords(ws)
    ensures Words(Lines(ws)) == ws
    ensures WordsAsWritten(Lines(ws)) == ws
  {
    var none: string := [];
    ReadLines(ws, none);
    EmptyAppend(none, Lines(ws));
    NoWordsInEmptyInput();
    EmptyAppend([], ws);
  }

  /** When the last line has no newline, the loop as written pushes every word
      but the last, which `while (std::cin >> line)` would push. */
  lemma AsWrittenDropsUnterminatedWord(ws: seq<string>, last: string)
    requires AreWords(ws) && last != [] && NoSpaces(last)
    ensures Words(Lines(ws) + last) == ws + [last]
    ensures WordsAsWritten(Lines(ws) + last) == ws
  {
    ReadLines(ws, last);
    LastWord(last);
    EmptyAppend([], ws);
  }

  /** An input made of one word and nothing after it. */
  lemma LastWord(last: string)
    requires last != [] && NoSpaces(last)
    ensures Words(last) == [last]
    ensures WordsAsWritten(last) == []
  {
    ExtractLeadingWord(last, []);
    assert last + [] == last;
    NoWordsInEmptyInput();
  }

  /** Two one-digit numbers, the second not followed by a newline (such as
      "8\n3"): the loop as written pushes only the first. */
  lemma MissingFinalNewlineExample(a: char, b: char)
    requires IsDigit(a) && IsDigit(b)
    ensures WordsAsWritten([a, '\n', b]) == [[a]]
    ensures Words([a, '\n', b]) == [[a], [b]]
  {
    var first: seq<string> := [[a]];
    assert [a, '\n', b] == Lines(first) + [b];
    assert AreWords(first);
    AsWrittenDropsUnterminatedWord(first, [b]);
  }

  /** What `string_to_int` makes of each word. */
  function ParseAll(ws: seq<string>): (vs: seq<int>)
    ensures |vs| == |ws|
  {
    if ws == [] then [] else [ParsedValue(ws[0])] + ParseAll(ws[1..])
  }

  lemma {:induction false} ParseAllAt(ws: seq<string>, i: nat)
    requires i < |ws|
    ensures ParseAll(ws)[i] == ParsedValue(ws[i])
  {
    if i > 0 {
      ParseAllAt(ws[1..], i - 1);
    }
  }

  lemma ParseAllCons(w: string, ws: seq<string>)
    ensures ParseAll([w] + ws) == [ParsedValue(w)] + ParseAll(ws)
  {
    ConsTail(w, ws);
  }

  // Proof helper: one more turn of the loop as written, after a read that
  // did not set eofbit.
  lemma WordsAsWrittenStep(input: string)
    requires !ExtractWord(input).eof
    ensures WordsAsWritten(input) == [ExtractWord(input).word] + WordsAsWritten(ExtractWord(input).rest)
  {
  }

  // Proof helper: one more turn of `while (std::cin >> line)`, after a read
  // that got a word.
  lemma WordsStep(input: string)
    requires ExtractWord(input).word != []
    ensures Words(input) == [ExtractWord(input).word] + Words(ExtractWord(input).rest)
  {
  }

  /** The loop in `main` as written: the values pushed on the input queue. */
  method IngestAsWritten(input: string) returns (pushed: seq<int>)
    ensures pushed == ParseAll(WordsAsWritten(input))
  {
    pushed := [];
    var rest := input;
    EmptyAppend(pushed, ParseAll(WordsAsWritten(input)));
    while true
      invariant |rest| <= |input|
      invariant pushed + ParseAll(WordsAsWritten(rest)) == ParseAll(WordsAsWritten(input))
      decreases |rest|
    {
      var x := ExtractWord(rest);
      if x.eof {
        break;
      }
      var v := StringToInt(x.word);
      WordsAsWrittenStep(rest);
      ParseAllCons(x.word, WordsAsWritten(x.rest));
      AppendAssoc(pushed, [v], ParseAll(WordsAsWritten(x.rest)));
      pushed := pushed + [v];
      rest := x.rest;
    }
  }

  /** The loop with `while (std::cin >> line)`: the values pushed on the
      input queue. */
  method Ingest(input: string) returns (pushed: seq<int>)
    ensures pushed == ParseAll(Words(input))
  {
    pushed := [];
    var rest := input;
    EmptyAppend(pushed, ParseAll(Words(input)));
    while true
      invariant |rest| <= |input|
      invariant pushed + ParseAll(Words(rest)) == ParseAll(Words(input))
      decreases |rest|
    {
      var x := ExtractWord(rest);
      if x.word == [] {
        break;
      }
      var v := StringToInt(x.word);
      WordsStep(rest);
      ParseAllCons(x.word, Words(x.rest));
      AppendAssoc(pushed, [v], ParseAll(Words(x.rest)));
      pushed := pushed + [v];
      rest := x.rest;
    }
  }

  /** The lines the display stage prints for the stream it receives. */
  function Displayed(values: seq<int>): (out: string)
    ensures out == [] <==> values == []
    ensures out != [] ==> out[|out| - 1] == '\n'
  {
    if values == [] then [] else DisplayInt(values[..1]) + Displayed(values[1..])
  }

  lemma DisplayedCons(v: int, vs: seq<int>)
    ensures Displayed([v] + vs) == FormatInt(v) + "\n" + Displayed(vs)
  {
    assert ([v] + vs)[..1] == [v] && ([v] + vs)[1..] == vs;
  }

  /** Numbers as `std::cout << n` writes them, one word each. */
  function FormatAll(ns: seq<int>): (ws: seq<string>)
    ensures |ws| == |ns|
  {
    if ns == [] then [] else [FormatInt(ns[0])] + FormatAll(ns[1..])
  }

  lemma {:induction false} FormatAllAt(ns: seq<int>, i: nat)
    requires i < |ns|
    ensures FormatAll(ns)[i] == FormatInt(ns[i])
  {
    if i > 0 {
      FormatAllAt(ns[1..], i - 1);
    }
  }

  /** The magnitude of each number. */
  function Magnitudes(ns: seq<int>): (ms: seq<int>)
    ensures |ms| == |ns|
    ensures forall i :: 0 <= i < |ns| ==> ms[i] >= 0 && (ms[i] == ns[i] || ms[i] == -ns[i])
  {
    seq(|ns|, i requires 0 <= i < |ns| => if ns[i] < 0 then -ns[i] else ns[i])
  }

  /** A printed number is one word: not empty, no white space. */
  lemma FormatIntIsWord(n: int)
    ensures FormatInt(n) != [] && NoSpaces(FormatInt(n))
  {
    var d := FormatNat(if n < 0 then -n else n);
    assert forall k :: 0 <= k < |d| ==> !IsSpace(d[k]);
    if n < 0 {
      var w := FormatInt(n);
      assert w == "-" + d;
      assert forall k :: 1 <= k < |w| ==> w[k] == d[k - 1];
    }
  }

  lemma FormattedAreWords(ns: seq<int>)
    ensures AreWords(FormatAll(ns))
  {
    var ws := FormatAll(ns);
    forall i | 0 <= i < |ws|
      ensures ws[i] != [] && NoSpaces(ws[i])
    {
      FormatAllAt(ns, i);
      FormatIntIsWord(ns[i]);
    }
  }

  /** Numbers written one per line are read back by the loop in `main` as
      their magnitudes: a minus sign is lost, the digits are kept. */
  lemma ReadPrintedNumbers(ns: seq<int>)
    ensures ParseAll(Words(Lines(FormatAll(ns)))) == Magnitudes(ns)
    ensures ParseAll(WordsAsWritten(Lines(FormatAll(ns)))) == Magnitudes(ns)
  {
    var ws := FormatAll(ns);
    FormattedAreWords(ns);
    TerminatedInputIsRead(ws);
    var vs := ParseAll(ws);
    forall i | 0 <= i < |ns|
      ensures vs[i] == Magnitudes(ns)[i]
    {
      ParseAllAt(ws, i);
      FormatAllAt(ns, i);
      ParsedValueOfFormat(ns[i]);
    }
  }

  /** What the display stage prints is the numbers it receives, one per
      line. */
  lemma {:induction false} DisplayedIsLines(values: seq<int>)
    ensures Displayed(values) == Lines(FormatAll(values))
  {
    if values != [] {
      DisplayedIsLines(values[1..]);
      var ws := FormatAll(values);
      ConsTail(FormatInt(values[0]), FormatAll(values[1..]));
      assert values[..1][0] == values[0];
    }
  }

  /** The numbers 8, 3 and -1, one per line, through the software pipeline:
      the "-1" is read as 1, and each number v comes out as 2v + 8. */
  lemma DemoExample(ns: seq<int>)
    requires |ns| == 3 && ns[0] == 8 && ns[1] == 3 && ns[2] == -1
    ensures SoftwareBranch(ParseAll(Words(Lines(FormatAll(ns))))) == [24, 14, 10]
  {
    ReadPrintedNumbers(ns);
    DoubledPlusEight(Magnitudes(ns));
  }

  lemma DoubledPlusEight(ms: seq<int>)
    requires |ms| == 3 && ms[0] == 8 && ms[1] == 3 && ms[2] == 1
    ensures SoftwareBranch(ms) == [24, 14, 10]
  {
    SoftwareBranchDoubles(ms);
  }

  /** Steps 1 to 3 of `main` in the software build: create the queues and
      the stages, then connect them from the input towards the output. Each
      stage starts its worker at the setter that completes its endpoints.
      The adder stage between `toAdder` and `toJoinLeft` is a library process
      and is not created here. */
  method WireSoftwareBranch()
    returns (input: BlockQueue<int>, toAdder: BlockQueue<int>, toJoinLeft: BlockQueue<int>,
             toJoinRight: BlockQueue<int>, output: BlockQueue<int>,
             tee: TeeProcess<int>, join: JoiningAddProcess, display: ThreadedProcessSink<int, string>)
    ensures fresh(input) && fresh(toAdder) && fresh(toJoinLeft) && fresh(toJoinRight) && fresh(output)
    ensures input != toAdder && input != toJoinLeft && input != toJoinRight && input != output
    ensures toAdder != toJoinLeft && toAdder != toJoinRight && toAdder != output
    ensures toJoinLeft != toJoinRight && toJoinLeft != output && toJoinRight != output
    ensures input.capacity == QueueCapacity && toAdder.capacity == QueueCapacity
    ensures toJoinLeft.capacity == QueueCapacity && toJoinRight.capacity == QueueCapacity
    ensures output.capacity == QueueCapacity
    ensures tee.Valid() && tee.worker == Running && tee.blocksize == BlockSize
    ensures tee.input == input && tee.outputLeft == toAdder && tee.outputRight == toJoinRight
    ensures join.Valid() && join.worker == Running && join.blocksize == BlockSize
    ensures join.inputLeft == toJoinLeft && join.inputRight == toJoinRight && join.output == output
    ensures RightChannel(tee, toJoinRight, join) && ShareOnlyRight(tee, join)
    ensures display.Valid() && display.worker == Running && display.blocksize == BlockSize
    ensures display.input == output && display.effects == []
  {
    input := new BlockQueue<int>(QueueCapacity);
    toAdder := new BlockQueue<int>(QueueCapacity);
    toJoinLeft := new BlockQueue<int>(QueueCapacity);
    toJoinRight := new BlockQueue<int>(QueueCapacity);
    output := new BlockQueue<int>(QueueCapacity);
    tee := WireTee(input, toAdder, toJoinRight);
    join := WireJoin(toJoinLeft, toJoinRight, output);
    display := WireDisplay(output);
  }

  /** `main` in the software build up to the display: wire the branch, then
      let the tee and the join threads run in the order `schedule` gives.
      The join's right input is then a prefix of what the tee sent the
      adder. */
  method RunSoftwareBranch(schedule: seq<bool>)
    returns (tee: TeeProcess<int>, toJoinRight: BlockQueue<int>, join: JoiningAddProcess)
    ensures tee.Valid() && join.Valid() && RightChannel(tee, toJoinRight, join)
    ensures join.consumedRight <= tee.sentLeft
  {
    var input, toAdder, toJoinLeft, output, display;
    input, toAdder, toJoinLeft, toJoinRight, output, tee, join, display := WireSoftwareBranch();
    RunTeeAndJoin(tee, toJoinRight, join, schedule);
  }

  /** The tee stage of the software build, bound to its three queues. */
  method WireTee(input: BlockQueue<int>, left: BlockQueue<int>, right: BlockQueue<int>)
    returns (tee: TeeProcess<int>)
    requires TeeReady(input, left, right)
    ensures fresh(tee) && tee.Valid() && tee.worker == Running && tee.blocksize == BlockSize
    ensures tee.input == input && tee.outputLeft == left && tee.outputRight == right
    ensures tee.consumed == [] && tee.sentLeft == [] && tee.sentRight == []
  {
    tee := new TeeProcess<int>(BlockSize);
    tee.SetInput(input);
    assert tee.worker == Unbound;
    tee.SetOutputLeft(left);
    assert tee.worker == Unbound;
    tee.SetOutputRight(right);
  }

  /** The joining stage of the software build, bound to its three queues. */
  method WireJoin(left: BlockQueue<int>, right: BlockQueue<int>, output: BlockQueue<int>)
    returns (join: JoiningAddProcess)
    requires JoinReady(left, right, output)
    ensures fresh(join) && join.Valid() && join.worker == Running && join.blocksize == BlockSize
    ensures join.inputLeft == left && join.inputRight == right && join.output == output
    ensures join.consumedLeft == [] && join.consumedRight == [] && join.sent == []
  {
    join := new JoiningAddProcess(BlockSize);
    join.SetInputLeft(left);
    assert join.worker == Unbound;
    join.SetInputRight(right);
    assert join.worker == Unbound;
    join.SetOutput(output);
  }

  /** The display stage: a sink that applies `display_int` to every block. */
  method WireDisplay(output: BlockQueue<int>) returns (display: ThreadedProcessSink<int, string>)
    requires output.Valid() && output.reading == 0
    ensures fresh(display) && display.Valid() && display.worker == Running && display.blocksize == BlockSize
    ensures display.input == output && display.effects == []
    ensures forall b | |b| == BlockSize :: display.processItem(b) == DisplayInt(b)
  {
    display := new ThreadedProcessSink<int, string>(BlockSize, b requires |b| == BlockSize => DisplayInt(b));
    display.SetInput(output);
  }
}
