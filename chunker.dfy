/** The reply chunker of `send_long_message`: the formatted answer is cut at
    newlines and the lines are packed greedily into messages no longer than
    the chat's limit, each line with its newline restored. A line too long on
    its own is sent whole as an oversized message. */
module Chunker {
  import opened Text
  import opened Markdown

  /** The chat platform's message length limit (`MAX_MESSAGE_LENGTH`). */
  const MaxMessageLength: nat := 4096

  /** `text.split('\n')`: newline-free lines that rebuild the text when
      joined with newlines. */
  function SplitLines(text: string): (lines: seq<string>)
    ensures |lines| >= 1
    ensures forall k :: 0 <= k < |lines| ==> '\n' !in lines[k]
  {
    Split(text, '\n')
  }

  /** The text a buffer holds after the lines of `group` were added to it,
      each followed by the newline. */
  function Render(group: seq<string>): string
  {
    if group == [] then "" else group[0] + "\n" + Render(group[1..])
  }

  /** All messages, one after the other. */
  function Concat(chunks: seq<string>): string
  {
    if chunks == [] then "" else chunks[0] + Concat(chunks[1..])
  }

  /** The lines of all groups, one group after the other. */
  function Flatten(groups: seq<seq<string>>): seq<string>
  {
    if groups == [] then [] else groups[0] + Flatten(groups[1..])
  }

  /** `sent` is what the greedy packing of `lines` under `maxLen` sends, and
      `groups` says which lines went into each message:
      - the groups are non-empty and hold the lines in order, each line once;
      - each message is its group's lines, each with its newline;
      - a message longer than `maxLen` holds a single line;
      - a message is closed only when its next line would not fit:
        `len(chunk) + len(line) + 1 > maxLen`. */
  ghost predicate IsGreedyChunking(lines: seq<string>, maxLen: nat, groups: seq<seq<string>>, sent: seq<string>)
  {
    && |sent| == |groups|
    && Flatten(groups) == lines
    && (forall k :: 0 <= k < |groups| ==> groups[k] != [] && sent[k] == Render(groups[k]))
    && (forall k :: 0 <= k < |groups| ==> |sent[k]| <= maxLen || |groups[k]| == 1)
    && (forall k :: 0 <= k < |groups| - 1 ==> ClosedForNext(maxLen, groups, sent, k))
  }

  /** Message `k` was closed because the first line of the next group,
      with its newline, would not fit into it. */
  ghost predicate ClosedForNext(maxLen: nat, groups: seq<seq<string>>, sent: seq<string>, k: nat)
    requires k < |sent| && k + 1 < |groups| && groups[k + 1] != []
  {
    |sent[k]| + |groups[k + 1][0]| + 1 > maxLen
  }

  /** The state of `send_long_message` after the lines `done`: the messages
      `sent` so far, made of the lines of `groups`, and the buffer holding the
      lines of `current`. Everything but the buffer is already a greedy
      packing, and the last message was closed because the buffer's first
      line would not fit into it. */
  ghost predicate PackingSoFar(done: seq<string>, maxLen: nat, groups: seq<seq<string>>, sent: seq<string>, current: seq<string>)
  {
    && IsGreedyChunking(Flatten(groups), maxLen, groups, sent)
    && Flatten(groups) + current == done
    && (current == [] <==> done == [])
    && (current == [] ==> groups == [])
    && (|Render(current)| <= maxLen || |current| == 1)
    && (groups != [] ==> |sent[|groups| - 1]| + |current[0]| + 1 > maxLen)
  }

  /** `send_long_message`: formats `text`, splits it into lines and sends the
      lines packed greedily into messages of at most `maxLen` characters.
      `sent` lists the messages in the order they are sent. */
  method SendLongMessage(text: string, maxLen: nat) returns (sent: seq<string>, ghost groups: seq<seq<string>>)
    ensures IsGreedyChunking(SplitLines(FormatForTelegram(text)), maxLen, groups, sent)
    ensures Concat(sent) == FormatForTelegram(text) + "\n"
    ensures |sent| >= 1
    ensures forall k :: 0 <= k < |sent| ==> |sent[k]| > 0 && sent[k][|sent[k]| - 1] == '\n'
    ensures forall k :: 0 <= k < |sent| ==> |sent[k]| <= maxLen || '\n' !in sent[k][..|sent[k]| - 1]
  {
    var formatted := FormatForTelegram(text);
    var paragraphs := SplitLines(formatted);
    sent, groups := PackLines(paragraphs, maxLen);
    GreedyChunkingShape(paragraphs, maxLen, groups, sent);
    JoinSplit(formatted, '\n');
  }

  /** The loop of `send_long_message`: each line joins the buffer when the
      buffer, the line and its newline fit in `maxLen`; otherwise a non-empty
      buffer is sent and the line starts a new one. The last buffer is sent
      at the end. */
  method PackLines(lines: seq<string>, maxLen: nat) returns (sent: seq<string>, ghost groups: seq<seq<string>>)
    ensures IsGreedyChunking(lines, maxLen, groups, sent)
    ensures Concat(sent) == Render(lines)
  {
    var current := "";
    ghost var currentGroup: seq<string> := [];
    sent, groups := [], [];
    for i := 0 to |lines|
      invariant PackingSoFar(lines[..i], maxLen, groups, sent, currentGroup)
      invariant current == Render(currentGroup)
    {
      var paragraph := lines[i];
      if |current| + |paragraph| + 1 <= maxLen {
        PackingAddLine(lines, i, maxLen, groups, sent, currentGroup);
        current := current + paragraph + "\n";
        currentGroup := currentGroup + [paragraph];
      } else {
        PackingBreak(lines, i, maxLen, groups, sent, currentGroup);
        if current != "" {
          sent := sent + [current];
          groups := groups + [currentGroup];
        }
        current := paragraph + "\n";
        currentGroup := [paragraph];
      }
    }
    assert lines[..|lines|] == lines;
    if current != "" {
      PackingClose(lines, maxLen, groups, sent, currentGroup);
      sent := sent + [current];
      groups := groups + [currentGroup];
    }
    assert Concat(sent) == Render(lines) by {
      ConcatRendered(groups, sent);
    }
  }

  /** A line that fits joins the buffer. */
  lemma PackingAddLine(lines: seq<string>, i: nat, maxLen: nat, groups: seq<seq<string>>, sent: seq<string>, current: seq<string>)
    requires i < |lines|
    requires PackingSoFar(lines[..i], maxLen, groups, sent, current)
    requires |Render(current)| + |lines[i]| + 1 <= maxLen
    ensures Render(current + [lines[i]]) == Render(current) + lines[i] + "\n"
    ensures PackingSoFar(lines[..i + 1], maxLen, groups, sent, current + [lines[i]])
  {
    var line := lines[i];
    assert lines[..i + 1] == lines[..i] + [line];
    RenderAppend(current, line);
    if groups != [] {
      assert (current + [line])[0] == current[0];
    }
  }

  /** The buffer, once its next line does not fit, is sent as a message. */
  lemma PackingClose(done: seq<string>, maxLen: nat, groups: seq<seq<string>>, sent: seq<string>, current: seq<string>)
    requires PackingSoFar(done, maxLen, groups, sent, current)
    requires current != []
    ensures IsGreedyChunking(done, maxLen, groups + [current], sent + [Render(current)])
  {
    FlattenAppend(groups, current);
    var groups', sent' := groups + [current], sent + [Render(current)];
    forall k | 0 <= k < |groups'| - 1
      ensures ClosedForNext(maxLen, groups', sent', k)
    {
      if k + 1 < |groups| {
        assert ClosedForNext(maxLen, groups, sent, k);
      }
    }
  }

  /** A line that does not fit closes the buffer, which is sent unless it is
      empty, and starts a new buffer. */
  lemma PackingBreak(lines: seq<string>, i: nat, maxLen: nat, groups: seq<seq<string>>, sent: seq<string>, current: seq<string>)
    requires i < |lines|
    requires PackingSoFar(lines[..i], maxLen, groups, sent, current)
    requires |Render(current)| + |lines[i]| + 1 > maxLen
    ensures Render(current) == "" <==> current == []
    ensures Render([lines[i]]) == lines[i] + "\n"
    ensures current != [] ==> PackingSoFar(lines[..i + 1], maxLen, groups + [current], sent + [Render(current)], [lines[i]])
    ensures current == [] ==> PackingSoFar(lines[..i + 1], maxLen, groups, sent, [lines[i]])
  {
    assert [lines[i]][1..] == [];
    assert lines[..i + 1] == lines[..i] + [lines[i]];
    if current != [] {
      PackingClose(lines[..i], maxLen, groups, sent, current);
    }
  }

  lemma {:induction false} RenderAppend(group: seq<string>, line: string)
    ensures Render(group + [line]) == Render(group) + line + "\n"
    decreases |group|
  {
    if group == [] {
      assert [line][1..] == [];
    } else {
      assert (group + [line])[1..] == group[1..] + [line];
      RenderAppend(group[1..], line);
    }
  }

  lemma {:induction false} RenderConcat(a: seq<string>, b: seq<string>)
    ensures Render(a + b) == Render(a) + Render(b)
    decreases |a|
  {
    if a == [] {
      assert a + b == b;
    } else {
      assert (a + b)[1..] == a[1..] + b;
      RenderConcat(a[1..], b);
    }
  }

  lemma {:induction false} FlattenAppend(groups: seq<seq<string>>, group: seq<string>)
    ensures Flatten(groups + [group]) == Flatten(groups) + group
    decreases |groups|
  {
    if groups == [] {
      assert [group][1..] == [];
    } else {
      assert (groups + [group])[1..] == groups[1..] + [group];
      FlattenAppend(groups[1..], group);
    }
  }

  /** A rendered group of lines is the lines joined by newlines, plus a
      final newline. */
  lemma {:induction false} RenderJoin(lines: seq<string>)
    requires |lines| >= 1
    ensures Render(lines) == Join(lines, '\n') + "\n"
    decreases |lines|
  {
    if |lines| > 1 {
      RenderJoin(lines[1..]);
    }
  }

  /** Sending the rendering of each group, in order, sends the rendering of
      all lines. */
  lemma {:induction false} ConcatRendered(groups: seq<seq<string>>, sent: seq<string>)
    requires |sent| == |groups|
    requires forall k :: 0 <= k < |groups| ==> sent[k] == Render(groups[k])
    ensures Concat(sent) == Render(Flatten(groups))
    decreases |groups|
  {
    if groups != [] {
      ConcatRendered(groups[1..], sent[1..]);
      RenderConcat(groups[0], Flatten(groups[1..]));
    }
  }

  /** A rendered group ends with a newline, and if it is a single line that
      line is all the newline is preceded by. */
  lemma RenderedGroup(group: seq<string>)
    requires group != []
    ensures |Render(group)| > 0 && Render(group)[|Render(group)| - 1] == '\n'
    ensures |group| == 1 ==> Render(group)[..|Render(group)| - 1] == group[0]
  {
    RenderConcat(group[..|group| - 1], [group[|group| - 1]]);
    assert group[..|group| - 1] + [group[|group| - 1]] == group;
    assert [group[|group| - 1]][1..] == [];
  }

  /** The lines of every group are lines of the input. */
  lemma {:induction false} InFlatten(groups: seq<seq<string>>, k: nat, j: nat)
    requires k < |groups| && j < |groups[k]|
    ensures groups[k][j] in Flatten(groups)
    decreases k
  {
    if k > 0 {
      InFlatten(groups[1..], k - 1, j);
    }
  }

  /** What every greedy packing of the lines of a text guarantees: the
      messages put back together are the text plus a newline, every message
      ends with a newline, an oversized message is a single line, and there
      is at least one message. */
  lemma GreedyChunkingShape(lines: seq<string>, maxLen: nat, groups: seq<seq<string>>, sent: seq<string>)
    requires |lines| >= 1
    requires forall k :: 0 <= k < |lines| ==> '\n' !in lines[k]
    requires IsGreedyChunking(lines, maxLen, groups, sent)
    ensures Concat(sent) == Join(lines, '\n') + "\n"
    ensures |sent| >= 1
    ensures forall k :: 0 <= k < |sent| ==> |sent[k]| > 0 && sent[k][|sent[k]| - 1] == '\n'
    ensures forall k :: 0 <= k < |sent| ==> |sent[k]| <= maxLen || '\n' !in sent[k][..|sent[k]| - 1]
  {
    ConcatRendered(groups, sent);
    RenderJoin(lines);
    forall k | 0 <= k < |sent|
      ensures |sent[k]| > 0 && sent[k][|sent[k]| - 1] == '\n'
      ensures |sent[k]| <= maxLen || '\n' !in sent[k][..|sent[k]| - 1]
    {
      RenderedGroup(groups[k]);
      if |sent[k]| > maxLen {
        InFlatten(groups, k, 0);
      }
    }
  }

  /** The first group of a packing is a prefix of the lines, and the other
      groups are a packing of the rest. */
  lemma FirstGroup(lines: seq<string>, maxLen: nat, groups: seq<seq<string>>, sent: seq<string>)
    requires IsGreedyChunking(lines, maxLen, groups, sent)
    requires groups != []
    ensures 1 <= |groups[0]| <= |lines|
    ensures lines[..|groups[0]|] == groups[0] && sent[0] == Render(groups[0])
    ensures IsGreedyChunking(lines[|groups[0]|..], maxLen, groups[1..], sent[1..])
  {
    assert lines == groups[0] + Flatten(groups[1..]);
    assert lines[|groups[0]|..] == Flatten(groups[1..]);
    forall k | 0 <= k < |groups[1..]| - 1
      ensures ClosedForNext(maxLen, groups[1..], sent[1..], k)
    {
      assert ClosedForNext(maxLen, groups, sent, k + 1);
    }
  }

  /** No packing starts with a shorter group than another: a shorter first
      group was closed although the next line still fitted. */
  lemma FirstGroupNotShorter(lines: seq<string>, maxLen: nat, g1: seq<seq<string>>, s1: seq<string>, g2: seq<seq<string>>, s2: seq<string>)
    requires IsGreedyChunking(lines, maxLen, g1, s1)
    requires IsGreedyChunking(lines, maxLen, g2, s2)
    requires g1 != [] && g2 != []
    ensures |g1[0]| >= |g2[0]|
  {
    FirstGroup(lines, maxLen, g1, s1);
    FirstGroup(lines, maxLen, g2, s2);
    var a, b := |g1[0]|, |g2[0]|;
    if a < b {
      assert |g1| >= 2;
      FirstGroup(lines[a..], maxLen, g1[1..], s1[1..]);
      assert g1[1][0] == lines[a];
      assert ClosedForNext(maxLen, g1, s1, 0);
      assert g2[0] == lines[..a + 1] + lines[a + 1..b];
      RenderConcat(lines[..a + 1], lines[a + 1..b]);
      assert lines[..a + 1] == g1[0] + [lines[a]];
      RenderAppend(g1[0], lines[a]);
      assert false;
    }
  }

  /** The conditions of `IsGreedyChunking` determine the messages: any two
      packings of the same lines under the same limit are equal, so they
      specify completely what `send_long_message` sends. */
  lemma {:induction false} GreedyChunkingUnique(lines: seq<string>, maxLen: nat, g1: seq<seq<string>>, s1: seq<string>, g2: seq<seq<string>>, s2: seq<string>)
    requires IsGreedyChunking(lines, maxLen, g1, s1)
    requires IsGreedyChunking(lines, maxLen, g2, s2)
    ensures g1 == g2 && s1 == s2
    decreases |lines|
  {
    if g1 == [] || g2 == [] {
      assert lines == [];
    } else {
      FirstGroupNotShorter(lines, maxLen, g1, s1, g2, s2);
      FirstGroupNotShorter(lines, maxLen, g2, s2, g1, s1);
      FirstGroup(lines, maxLen, g1, s1);
      FirstGroup(lines, maxLen, g2, s2);
      var n := |g1[0]|;
      GreedyChunkingUnique(lines[n..], maxLen, g1[1..], s1[1..], g2[1..], s2[1..]);
      assert g1 == [g1[0]] + g1[1..] && g2 == [g2[0]] + g2[1..];
      assert s1 == [s1[0]] + s1[1..] && s2 == [s2[0]] + s2[1..];
    }
  }

  lemma {:induction false} FlattenSingletons(lines: seq<string>)
    ensures Flatten(seq(|lines|, k requires 0 <= k < |lines| => [lines[k]])) == lines
    decreases |lines|
  {
    if lines != [] {
      FlattenSingletons(lines[1..]);
      assert seq(|lines|, k requires 0 <= k < |lines| => [lines[k]])[1..]
          == seq(|lines[1..]|, k requires 0 <= k < |lines[1..]| => [lines[1..][k]]);
    }
  }

  /** When no two neighbouring lines fit into one message, every line is
      sent as a message of its own, whatever its length. */
  lemma ChunkingOneLineEach(lines: seq<string>, maxLen: nat, groups: seq<seq<string>>, sent: seq<string>)
    requires IsGreedyChunking(lines, maxLen, groups, sent)
    requires forall k :: 0 <= k < |lines| - 1 ==> |lines[k]| + |lines[k + 1]| + 2 > maxLen
    ensures |sent| == |lines|
    ensures forall k :: 0 <= k < |lines| ==> sent[k] == lines[k] + "\n"
  {
    var g := seq(|lines|, k requires 0 <= k < |lines| => [lines[k]]);
    var s := seq(|lines|, k requires 0 <= k < |lines| => lines[k] + "\n");
    FlattenSingletons(lines);
    forall k | 0 <= k < |lines|
      ensures g[k] != [] && s[k] == Render(g[k])
    {
      assert g[k][1..] == [];
    }
    forall k | 0 <= k < |g| - 1
      ensures ClosedForNext(maxLen, g, s, k)
    {
    }
    GreedyChunkingUnique(lines, maxLen, groups, sent, g, s);
  }

  /** A text of one line is sent as one message, the line and a newline,
      however long the line is. */
  lemma ChunkingOfSingleLine(line: string, maxLen: nat, groups: seq<seq<string>>, sent: seq<string>)
    requires IsGreedyChunking([line], maxLen, groups, sent)
    ensures sent == [line + "\n"]
  {
    ChunkingOneLineEach([line], maxLen, groups, sent);
  }

  /** Empty text is sent as one message holding just a newline. */
  lemma ChunkingOfEmptyText(maxLen: nat, groups: seq<seq<string>>, sent: seq<string>)
    requires IsGreedyChunking(SplitLines(FormatForTelegram("")), maxLen, groups, sent)
    ensures sent == ["\n"]
  {
    assert SplitLines("") == [""];
    ChunkingOfSingleLine("", maxLen, groups, sent);
    assert "" + "\n" == "\n";
  }

  /** Three one-character lines joined by newlines split back into them. */
  lemma ThreeLinesSplit(x: char, y: char, z: char)
    requires x != '\n' && y != '\n' && z != '\n'
    ensures SplitLines([x, '\n', y, '\n', z]) == [[x], [y], [z]]
  {
    var lines := [[x], [y], [z]];
    assert lines[1..][1..] == [[z]];
    assert Join(lines[1..], '\n') == [y, '\n', z];
    assert Join(lines, '\n') == [x, '\n', y, '\n', z];
    SplitJoin(lines, '\n');
  }

  /** Lines that fill the limit exactly with their newline go one per
      message: three one-character lines such as "a\nb\nc", which the
      conversion leaves alone, under a limit of 3 are sent as "a\n", "b\n"
      and "c\n". */
  lemma ChunkingOfFullLines(x: char, y: char, z: char, groups: seq<seq<string>>, sent: seq<string>)
    requires x !in "\n*`" && y !in "\n*`" && z !in "\n*`"
    requires IsGreedyChunking(SplitLines(FormatForTelegram([x, '\n', y, '\n', z])), 3, groups, sent)
    ensures FormatForTelegram([x, '\n', y, '\n', z]) == [x, '\n', y, '\n', z]
    ensures sent == [[x, '\n'], [y, '\n'], [z, '\n']]
  {
    var text := [x, '\n', y, '\n', z];
    assert FormatForTelegram(text) == text by {
      FormatWithoutMarkers(text);
    }
    var lines := [[x], [y], [z]];
    assert SplitLines(text) == lines by {
      ThreeLinesSplit(x, y, z);
    }
    ChunkingOneLineEach(lines, 3, groups, sent);
    assert sent[0] == [x, '\n'] && sent[1] == [y, '\n'] && sent[2] == [z, '\n'];
  }

  /** A line whose converted form is longer than the limit allows is sent
      whole, as one oversized message, never cut (for instance "hello world"
      under a limit of 5). */
  lemma ChunkingOfLongLine(text: string, maxLen: nat, groups: seq<seq<string>>, sent: seq<string>)
    requires '\n' !in text
    requires |FormatForTelegram(text)| + 1 > maxLen
    requires IsGreedyChunking(SplitLines(FormatForTelegram(text)), maxLen, groups, sent)
    ensures sent == [FormatForTelegram(text) + "\n"] && |sent[0]| > maxLen
  {
    var formatted := FormatForTelegram(text);
    FormatKeepsOtherCharacters(text);
    InWithout(text, Markers, '\n');
    InWithout(formatted, Markers, '\n');
    SplitWithoutSeparator(formatted, '\n');
    ChunkingOfSingleLine(formatted, maxLen, groups, sent);
  }
}
