/** The splitting loop of scripts/session-transcripts.ts: transcripts packed, in order,
    into files of bounded size. */
module SessionTranscripts {
  import opened CanonicalJson

  /** Lengths are in UTF-16 code units, as those of JavaScript strings. */
  const MAX_CHARS_PER_FILE := 100_000

  const NEWLINE: Unit := 10
  const SEPARATOR: Text := [NEWLINE, NEWLINE]

  type Group = seq<Text>

  /** The content of a file that holds `group`. */
  function Joined(group: Group): Text {
    if group == [] then []
    else if |group| == 1 then group[0]
    else Joined(group[..|group| - 1]) + SEPARATOR + group[|group| - 1]
  }

  function Flatten(groups: seq<Group>): seq<Text> {
    if groups == [] then [] else Flatten(groups[..|groups| - 1]) + groups[|groups| - 1]
  }

  /** A group that may share a file: it fits, or it is one transcript. */
  predicate Admissible(group: Group) {
    group != [] && (|group| == 1 || |Joined(group)| <= MAX_CHARS_PER_FILE)
  }

  /** `groups` cuts `transcripts` into admissible groups, in order. */
  ghost predicate Grouping(groups: seq<Group>, transcripts: seq<Text>) {
    Flatten(groups) == transcripts && forall g | g in groups :: Admissible(g)
  }

  /** One more transcript joins the last group if it fits there. */
  function Add(groups: seq<Group>, t: Text): seq<Group> {
    if groups != [] && |Joined(groups[|groups| - 1])| + |t| + 2 <= MAX_CHARS_PER_FILE
    then groups[..|groups| - 1] + [groups[|groups| - 1] + [t]]
    else groups + [[t]]
  }

  function Greedy(transcripts: seq<Text>): seq<Group> {
    if transcripts == [] then [] else Add(Greedy(transcripts[..|transcripts| - 1]), transcripts[|transcripts| - 1])
  }

  // ---------- Sizes

  lemma JoinedSnoc(group: Group, t: Text)
    ensures Joined(group + [t]) == if group == [] then t else Joined(group) + SEPARATOR + t
  {
    assert (group + [t])[..|group|] == group;
  }

  lemma {:induction false} DropFirst(group: Group)
    requires |group| > 1
    ensures |Joined(group[1..])| < |Joined(group)|
  {
    var init, t := group[..|group| - 1], group[|group| - 1];
    assert group == init + [t] && group[1..] == init[1..] + [t];
    JoinedSnoc(init, t);
    JoinedSnoc(init[1..], t);
    if |init| > 1 { DropFirst(init); }
  }

  /** A file holds its transcripts in order with a blank line between them. */
  lemma {:induction false} JoinedConcat(a: Group, b: Group)
    requires a != [] && b != []
    ensures Joined(a + b) == Joined(a) + [10, 10] + Joined(b)
  {
    var init, t := b[..|b| - 1], b[|b| - 1];
    assert a + b == a + init + [t] && b == init + [t];
    JoinedSnoc(a + init, t);
    JoinedSnoc(init, t);
    if init == [] {
      assert a + init == a;
    } else {
      JoinedConcat(a, init);
      assert Joined(a) + [10, 10] + Joined(init) + SEPARATOR + t == Joined(a) + [10, 10] + (Joined(init) + SEPARATOR + t);
    }
  }

  /** A shorter suffix is a smaller file. */
  lemma {:induction false} SuffixIsSmaller(group: Group, k: nat)
    requires k < |group|
    ensures |Joined(group[k..])| <= |Joined(group)|
  {
    if k == 0 {
      assert group[0..] == group;
    } else {
      DropFirst(group);
      SuffixIsSmaller(group[1..], k - 1);
      assert group[1..][k - 1..] == group[k..];
    }
  }

  lemma FlattenSnoc(groups: seq<Group>, g: Group)
    ensures Flatten(groups + [g]) == Flatten(groups) + g
  {
    assert (groups + [g])[..|groups|] == groups;
  }

  // ---------- The greedy grouping

  lemma AddGroups(groups: seq<Group>, transcripts: seq<Text>, t: Text)
    requires Grouping(groups, transcripts)
    ensures Grouping(Add(groups, t), transcripts + [t])
  {
    if groups != [] && |Joined(groups[|groups| - 1])| + |t| + 2 <= MAX_CHARS_PER_FILE {
      var before, last := groups[..|groups| - 1], groups[|groups| - 1];
      assert groups == before + [last];
      FlattenSnoc(before, last + [t]);
      assert Flatten(before) + (last + [t]) == transcripts + [t];
      assert last in groups;
      JoinedSnoc(last, t);
      assert Admissible(last + [t]);
    } else {
      FlattenSnoc(groups, [t]);
    }
  }

  /** Every transcript is in exactly one file, in order, and only a lone transcript can
      make a file too long. */
  lemma {:induction false} GreedyIsGrouping(transcripts: seq<Text>)
    ensures Grouping(Greedy(transcripts), transcripts)
  {
    if transcripts != [] {
      var init, t := transcripts[..|transcripts| - 1], transcripts[|transcripts| - 1];
      GreedyIsGrouping(init);
      AddGroups(Greedy(init), init, t);
      assert init + [t] == transcripts;
    }
  }

  /** `groups` is no more than `other`, and if as many, its last group is no longer. */
  ghost predicate Ahead(groups: seq<Group>, other: seq<Group>) {
    && |groups| <= |other|
    && (|groups| == |other| > 0 ==> |groups[|groups| - 1]| <= |other[|other| - 1]|)
  }

  lemma LastIsSuffix(groups: seq<Group>, transcripts: seq<Text>)
    requires Flatten(groups) == transcripts && groups != []
    ensures var last := groups[|groups| - 1]; |last| <= |transcripts| && last == transcripts[|transcripts| - |last|..]
  {
  }

  /** If another grouping has `t` beside something, a grouping that is ahead can add it. */
  lemma RoomForMore(groups: seq<Group>, other: seq<Group>, transcripts: seq<Text>, t: Text)
    requires Grouping(groups, transcripts) && Flatten(other) == transcripts && groups != [] && other != []
    requires |groups[|groups| - 1]| <= |other[|other| - 1]|
    requires |Joined(other[|other| - 1] + [t])| <= MAX_CHARS_PER_FILE
    ensures |Joined(groups[|groups| - 1])| + |t| + 2 <= MAX_CHARS_PER_FILE
  {
    var mine, theirs := groups[|groups| - 1], other[|other| - 1];
    LastIsSuffix(groups, transcripts);
    LastIsSuffix(other, transcripts);
    assert mine in groups && mine != [];
    assert mine == theirs[|theirs| - |mine|..];
    SuffixIsSmaller(theirs, |theirs| - |mine|);
    JoinedSnoc(theirs, t);
  }

  lemma AddStaysAhead(groups: seq<Group>, other: seq<Group>, t: Text)
    requires Ahead(groups, other)
    requires other != [] && |groups| == |other| ==> |Joined(groups[|groups| - 1])| + |t| + 2 <= MAX_CHARS_PER_FILE
    ensures other != [] ==> Ahead(Add(groups, t), other[..|other| - 1] + [other[|other| - 1] + [t]])
  {
  }

  /** Taking the last transcript away from a grouping. */
  lemma WithoutLast(groups: seq<Group>, transcripts: seq<Text>, t: Text) returns (before: seq<Group>, rest: Group)
    requires Grouping(groups, transcripts + [t])
    ensures groups == before + [rest + [t]]
    ensures rest == [] ==> Grouping(before, transcripts)
    ensures rest != [] ==> Grouping(before + [rest], transcripts) && |Joined(rest + [t])| <= MAX_CHARS_PER_FILE
  {
    before := groups[..|groups| - 1];
    var last := groups[|groups| - 1];
    assert last in groups && last != [];
    rest := last[..|last| - 1];
    assert (transcripts + [t])[|transcripts|] == t;
    assert Flatten(groups) == Flatten(before) + last;
    assert last == rest + [t];
    assert transcripts == (transcripts + [t])[..|transcripts|] == (Flatten(before) + rest + [t])[..|transcripts|];
    assert transcripts == Flatten(before) + rest;
    if rest == [] {
      assert Flatten(before) + rest == Flatten(before);
    } else {
      FlattenSnoc(before, rest);
      JoinedSnoc(rest, t);
      assert Admissible(rest);
    }
  }

  /** The greedy grouping stays ahead of every grouping of the same transcripts. */
  lemma {:induction false} GreedyStaysAhead(transcripts: seq<Text>, groups: seq<Group>)
    requires Grouping(groups, transcripts)
    ensures Ahead(Greedy(transcripts), groups)
    decreases |transcripts|
  {
    if transcripts != [] {
      var init, t := transcripts[..|transcripts| - 1], transcripts[|transcripts| - 1];
      assert transcripts == init + [t];
      GreedyIsGrouping(init);
      var before, rest := WithoutLast(groups, init, t);
      if rest == [] {
        GreedyStaysAhead(init, before);
      } else {
        var shorter := before + [rest];
        GreedyStaysAhead(init, shorter);
        if |Greedy(init)| == |shorter| { RoomForMore(Greedy(init), shorter, init, t); }
        AddStaysAhead(Greedy(init), shorter, t);
      }
    }
  }

  /** No order-preserving grouping needs fewer files. */
  lemma GreedyIsMinimal(transcripts: seq<Text>, groups: seq<Group>)
    requires Grouping(groups, transcripts)
    ensures |Greedy(transcripts)| <= |groups|
  {
    GreedyStaysAhead(transcripts, groups);
  }

  // ---------- The loop

  /** A file, by its number, and what is written to it. */
  datatype File = File(index: nat, content: Text)

  function Written(groups: seq<Group>): (r: seq<File>)
    ensures |r| == |groups| && forall i | 0 <= i < |r| :: r[i] == File(i, Joined(groups[i]))
  {
    seq(|groups|, i requires 0 <= i < |groups| => File(i, Joined(groups[i])))
  }

  /** The loop's variables after some transcripts: what is written and what is not yet. */
  ghost predicate Loop(groups: seq<Group>, files: seq<File>, content: Text) {
    if content == [] then
      && files == Written(groups)
      && (groups != [] ==> |Joined(groups[|groups| - 1])| > MAX_CHARS_PER_FILE)
    else
      groups != [] && files == Written(groups[..|groups| - 1]) && content == Joined(groups[|groups| - 1])
  }

  lemma WrittenSnoc(groups: seq<Group>, g: Group)
    ensures Written(groups + [g]) == Written(groups) + [File(|groups|, Joined(g))]
  {
  }

  lemma Flush(groups: seq<Group>, files: seq<File>, content: Text)
    requires Loop(groups, files, content)
    ensures content == [] ==> files == Written(groups)
    ensures content != [] ==> files + [File(|files|, content)] == Written(groups)
  {
    if content != [] {
      WrittenSnoc(groups[..|groups| - 1], groups[|groups| - 1]);
      assert groups[..|groups| - 1] + [groups[|groups| - 1]] == groups;
    }
  }

  /** What opens a new file. */
  lemma Opens(groups: seq<Group>, files: seq<File>, content: Text, t: Text)
    requires Loop(groups, files, content)
    ensures content == [] || |content| + |t| + 2 > MAX_CHARS_PER_FILE ==> Add(groups, t) == groups + [[t]]
  {
  }

  lemma Starts(groups: seq<Group>, t: Text)
    requires t != []
    ensures Loop(groups + [[t]], Written(groups), t)
    ensures |t| > MAX_CHARS_PER_FILE ==> Loop(groups + [[t]], Written(groups) + [File(|groups|, t)], [])
  {
    assert (groups + [[t]])[..|groups|] == groups;
    WrittenSnoc(groups, [t]);
  }

  lemma Joins(groups: seq<Group>, files: seq<File>, content: Text, t: Text)
    requires Loop(groups, files, content) && content != [] && |content| + |t| + 2 <= MAX_CHARS_PER_FILE
    ensures Loop(Add(groups, t), files, content + SEPARATOR + t)
  {
    assert Add(groups, t)[..|groups| - 1] == groups[..|groups| - 1];
    JoinedSnoc(groups[|groups| - 1], t);
  }

  /** The body of the loop. */
  method Pack(files0: seq<File>, fileIndex0: nat, content0: Text, transcript: Text, ghost groups: seq<Group>)
      returns (files: seq<File>, fileIndex: nat, currentContent: Text)
    requires transcript != [] && fileIndex0 == |files0| && Loop(groups, files0, content0)
    ensures fileIndex == |files| && Loop(Add(groups, transcript), files, currentContent)
  {
    files, fileIndex, currentContent := files0, fileIndex0, content0;
    Opens(groups, files, currentContent, transcript);
    Flush(groups, files, currentContent);
    if |currentContent| > 0 && |currentContent| + |transcript| + 2 > MAX_CHARS_PER_FILE {
      files := files + [File(fileIndex, currentContent)];
      currentContent := [];
      fileIndex := fileIndex + 1;
    }
    if |transcript| > MAX_CHARS_PER_FILE {
      if |currentContent| > 0 {
        assert false;
      }
      Starts(groups, transcript);
      files := files + [File(fileIndex, transcript)];
      fileIndex := fileIndex + 1;
      return;
    }
    if currentContent != [] { Joins(groups, files, currentContent, transcript); } else { Starts(groups, transcript); }
    currentContent := if currentContent != [] then currentContent + SEPARATOR + transcript else transcript;
  }

  lemma GreedySnoc(transcripts: seq<Text>, i: nat)
    requires i < |transcripts|
    ensures Greedy(transcripts[..i + 1]) == Add(Greedy(transcripts[..i]), transcripts[i])
  {
    assert transcripts[..i + 1][..i] == transcripts[..i];
  }

  method Split(transcripts: seq<Text>) returns (files: seq<File>)
    requires forall t | t in transcripts :: t != []
    ensures files == Written(Greedy(transcripts))
    ensures |files| == |Greedy(transcripts)| && forall i | 0 <= i < |files| :: files[i].index == i
  {
    files := [];
    var currentContent: Text, fileIndex := [], 0;
    for i := 0 to |transcripts|
      invariant fileIndex == |files| && Loop(Greedy(transcripts[..i]), files, currentContent)
    {
      GreedySnoc(transcripts, i);
      assert transcripts[i] in transcripts;
      files, fileIndex, currentContent := Pack(files, fileIndex, currentContent, transcripts[i], Greedy(transcripts[..i]));
    }
    assert transcripts[..|transcripts|] == transcripts;
    Flush(Greedy(transcripts), files, currentContent);
    if |currentContent| > 0 {
      files := files + [File(fileIndex, currentContent)];
    }
  }
}
