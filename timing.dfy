/** The caption timing index of CaptionsComposition.jsx: seconds to frames,
    segmentation of the transcript into groups, the per-frame activity queries,
    the emoji overlay window and the style dispatch. Seconds are exact reals. */
module Timing {
  import opened Js

  /** One transcribed word with its start and end time in seconds. */
  datatype Word = Word(text: string, start: real, end: real)

  // ---------------------------------------------------------------------------
  // Seconds to frames
  // ---------------------------------------------------------------------------

  /** `Math.round`: the nearest integer, halves rounded up. */
  function Round(x: real): (r: int)
    ensures r as real - 0.5 <= x < r as real + 0.5
  {
    (x + 0.5).Floor
  }

  /** `toFrame(seconds, fps)`: the frame nearest to `seconds * fps`. */
  function ToFrame(seconds: real, fps: real): (f: int)
    ensures f as real - 0.5 <= seconds * fps < f as real + 0.5
  {
    Round(seconds * fps)
  }

  /** A later time never maps to an earlier frame. */
  lemma ToFrameMonotone(s1: real, s2: real, fps: real)
    requires s1 <= s2 && fps >= 0.0
    ensures ToFrame(s1, fps) <= ToFrame(s2, fps)
  {
    assert s1 * fps <= s2 * fps by {
      assert (s2 - s1) * fps >= 0.0;
    }
  }

  // ---------------------------------------------------------------------------
  // Segmentation
  // ---------------------------------------------------------------------------

  /** How many words `groupWords` takes when `remaining` words are left: `size`
      while at least `2 * size + 1` remain, otherwise `size + 1` (absorbing what
      would be a one-word group) while at least `size + 1` remain, otherwise all. */
  function Take(remaining: nat, size: nat): nat {
    if remaining >= size * 2 + 1 then size
    else if remaining >= size + 1 then size + 1
    else remaining
  }

  /** The groups `groupWords(ws, size)` produces, left to right. */
  function Groups(ws: seq<Word>, size: nat): seq<seq<Word>>
    requires size >= 1
    decreases |ws|
  {
    if |ws| == 0 then []
    else
      var t := Take(|ws|, size);
      [ws[..t]] + Groups(ws[t..], size)
  }

  /** The concatenation of a sequence of groups. */
  function Flatten(gs: seq<seq<Word>>): seq<Word> {
    if |gs| == 0 then [] else gs[0] + Flatten(gs[1..])
  }

  /** `groupWords(words, size)`: walks the words left to right, cutting off
      `Take(remaining, size)` words at a time. */
  method GroupWords(words: seq<Word>, size: nat) returns (groups: seq<seq<Word>>)
    requires size >= 1
    ensures groups == Groups(words, size)
    ensures Flatten(groups) == words
    ensures forall k :: 0 <= k < |groups| ==> 1 <= |groups[k]| <= size + 1
  {
    groups := [];
    var i := 0;
    while i < |words|
      invariant 0 <= i <= |words|
      invariant groups + Groups(words[i..], size) == Groups(words, size)
    {
      var remaining := |words| - i;
      var take := if remaining >= size * 2 + 1 then size else if remaining >= size + 1 then size + 1 else remaining;
      GroupsStep(words, i, size);
      AppendAssoc(groups, [words[i..i + take]], Groups(words[i + take..], size));
      groups := groups + [words[i..i + take]];
      i := i + take;
    }
    assert words[i..] == [];
    GroupsPartition(words, size);
    GroupsBounded(words, size);
  }

  /** One iteration of the loop: the groups of `ws[i..]` are its first cut
      followed by the groups of what is left. */
  lemma GroupsStep(ws: seq<Word>, i: nat, size: nat)
    requires size >= 1 && i < |ws|
    ensures var t := Take(|ws| - i, size);
      i + t <= |ws| && Groups(ws[i..], size) == [ws[i..i + t]] + Groups(ws[i + t..], size)
  {
    var t := Take(|ws| - i, size);
    assert ws[i..][..t] == ws[i..i + t];
    assert ws[i..][t..] == ws[i + t..];
  }

  lemma AppendAssoc(a: seq<seq<Word>>, b: seq<seq<Word>>, c: seq<seq<Word>>)
    ensures (a + b) + c == a + (b + c)
  {
  }

  /** Segmentation is a partition: the groups, concatenated, give back the words
      in their original order. */
  lemma {:induction false} GroupsPartition(ws: seq<Word>, size: nat)
    requires size >= 1
    ensures Flatten(Groups(ws, size)) == ws
    decreases |ws|
  {
    if |ws| > 0 {
      var t := Take(|ws|, size);
      var gs := Groups(ws, size);
      assert gs[1..] == Groups(ws[t..], size);
      GroupsPartition(ws[t..], size);
      assert ws == ws[..t] + ws[t..];
    }
  }

  /** Every group is non-empty and has at most `size + 1` words; there are no
      groups at all exactly when there are no words. */
  lemma {:induction false} GroupsBounded(ws: seq<Word>, size: nat)
    requires size >= 1
    ensures |Groups(ws, size)| == 0 <==> |ws| == 0
    ensures forall k :: 0 <= k < |Groups(ws, size)| ==> 1 <= |Groups(ws, size)[k]| <= size + 1
    decreases |ws|
  {
    if |ws| > 0 {
      var t := Take(|ws|, size);
      GroupsBounded(ws[t..], size);
      var gs := Groups(ws, size);
      forall k | 0 <= k < |gs| ensures 1 <= |gs[k]| <= size + 1 {
        if k > 0 {
          assert gs[k] == Groups(ws[t..], size)[k - 1];
        }
      }
    }
  }

  /** Every group but the last has `size` or `size + 1` words. */
  lemma {:induction false} GroupsInnerSizes(ws: seq<Word>, size: nat)
    requires size >= 1
    ensures forall k :: 0 <= k < |Groups(ws, size)| - 1 ==>
      |Groups(ws, size)[k]| == size || |Groups(ws, size)[k]| == size + 1
    decreases |ws|
  {
    if |ws| > 0 {
      var t := Take(|ws|, size);
      var gs := Groups(ws, size);
      GroupsInnerSizes(ws[t..], size);
      GroupsBounded(ws[t..], size);
      forall k | 0 <= k < |gs| - 1 ensures |gs[k]| == size || |gs[k]| == size + 1 {
        if k > 0 {
          assert gs[k] == Groups(ws[t..], size)[k - 1];
        } else {
          assert |ws[t..]| > 0;
        }
      }
    }
  }

  /** `size + 1` words form a single group instead of `size` words and an orphan. */
  lemma AbsorbOrphan(ws: seq<Word>, size: nat)
    requires size >= 1 && |ws| == size + 1
    ensures Groups(ws, size) == [ws]
  {
    assert ws[..size + 1] == ws;
    assert ws[size + 1..] == [];
  }

  lemma MulAtLeast(d: int, s: int)
    requires d >= 1 && s > 0
    ensures d * s >= s
  {
    assert d * s == (d - 1) * s + s;
  }

  /** Removing one `s` does not change the remainder modulo `s`. */
  lemma ModShift(n: int, s: int)
    requires s > 0
    ensures (n - s) % s == n % s
  {
    var q, r := (n - s) / s, (n - s) % s;
    var q2, r2 := n / s, n % s;
    assert n == (q + 1) * s + r by {
      assert n - s == q * s + r;
      assert (q + 1) * s == q * s + s;
    }
    assert n == q2 * s + r2;
    assert (q + 1 - q2) * s == r2 - r by {
      assert (q + 1 - q2) * s == (q + 1) * s - q2 * s;
    }
    if q + 1 - q2 >= 1 {
      MulAtLeast(q + 1 - q2, s);
    } else if q2 - q - 1 >= 1 {
      MulAtLeast(q2 - q - 1, s);
    }
  }

  /** The word counts whose last group is a single word (see LastGroupSingleton). */
  predicate EndsInSingleton(n: nat, size: nat) {
    n == 1 || (size >= 2 && n >= size + 2 && n % size == 2 % size)
  }

  lemma EndsInSingletonShift(n: nat, size: nat)
    requires size >= 1 && n >= size * 2 + 1
    ensures EndsInSingleton(n, size) <==> EndsInSingleton(n - size, size)
  {
    ModShift(n, size);
  }

  lemma SmallMod(m: int, d: int)
    requires 0 <= m < d
    ensures m % d == m
  {
  }

  lemma SelfMod(d: int)
    requires d > 0
    ensures d % d == 0
  {
  }

  lemma EndsInSingletonTail(n: nat, size: nat)
    requires size >= 1 && size + 1 < n <= size * 2
    ensures EndsInSingleton(n, size) <==> n == size + 2
  {
    ModShift(n, size);
    if n - size < size {
      SmallMod(n - size, size);
      SmallMod(2, size);
    } else if size == 2 {
    } else {
      SelfMod(size);
      SmallMod(2, size);
    }
  }

  /** The last group has a single word exactly when there is only one word, or the
      size is at least 2 and the word count is at least `size + 2` and congruent to
      2 modulo `size`. So the absorption rule does not rule out a final one-word
      group: 6 words with size 4 end in one. */
  lemma {:induction false} LastGroupSingleton(ws: seq<Word>, size: nat)
    requires size >= 1 && |ws| > 0
    ensures |Groups(ws, size)| > 0
    ensures |Groups(ws, size)[|Groups(ws, size)| - 1]| == 1 <==> EndsInSingleton(|ws|, size)
    decreases |ws|
  {
    var n := |ws|;
    var t := Take(n, size);
    var gs := Groups(ws, size);
    var rest := Groups(ws[t..], size);
    assert gs == [ws[..t]] + rest;
    GroupsBounded(ws[t..], size);
    if n >= size * 2 + 1 {
      LastGroupSingleton(ws[t..], size);
      assert gs[|gs| - 1] == rest[|rest| - 1];
      EndsInSingletonShift(n, size);
    } else if n == size + 1 || n <= size {
      assert |rest| == 0;
    } else {
      var tail := ws[t..];
      assert rest == [tail[..|tail|]] + Groups(tail[|tail|..], size);
      assert |rest| == 1 && |rest[0]| == n - size - 1;
      EndsInSingletonTail(n, size);
    }
  }

  /** The five-word example: with size 4 the five words form one group, which is
      the active group at frame 15 (0.5 s) at 30 fps. */
  lemma FiveWordExample()
    ensures var ws := [Word("the", 0.0, 0.2), Word("quick", 0.2, 0.5), Word("brown", 0.5, 0.8),
                       Word("fox", 0.8, 1.1), Word("jumps", 1.1, 1.4)];
      Groups(ws, 4) == [ws] && ActiveGroup(Groups(ws, 4), 15, 30.0) == Some(ws)
  {
    var ws := [Word("the", 0.0, 0.2), Word("quick", 0.2, 0.5), Word("brown", 0.5, 0.8),
               Word("fox", 0.8, 1.1), Word("jumps", 1.1, 1.4)];
    AbsorbOrphan(ws, 4);
    assert InWindow(ws, 15, 30.0);
  }

  /** The concrete case: 6 words grouped by 4 give a group of 5 and a group of 1. */
  lemma SixByFour(ws: seq<Word>)
    requires |ws| == 6
    ensures |Groups(ws, 4)| == 2 && |Groups(ws, 4)[0]| == 5 && |Groups(ws, 4)[1]| == 1
  {
    var rest := ws[5..];
    assert Groups(rest, 4) == [rest[..1]] + Groups(rest[1..], 4);
    assert Groups(ws, 4) == [ws[..5]] + Groups(rest, 4);
  }

  // ---------------------------------------------------------------------------
  // Activity queries
  // ---------------------------------------------------------------------------

  /** `isWordActive(word, frame, fps)`: the inclusive window test. */
  predicate IsWordActive(w: Word, frame: int, fps: real) {
    ToFrame(w.start, fps) <= frame <= ToFrame(w.end, fps)
  }

  /** In terms of time: a word is active at frame `f` exactly when it starts
      before the middle of the gap after frame `f` and ends no earlier than the
      middle of the gap before it (times scaled by `fps`). */
  lemma IsWordActiveIff(w: Word, frame: int, fps: real)
    ensures IsWordActive(w, frame, fps) <==>
      w.start * fps < frame as real + 0.5 && frame as real - 0.5 <= w.end * fps
  {
    var a, b := ToFrame(w.start, fps), ToFrame(w.end, fps);
    if w.start * fps < frame as real + 0.5 {
      assert (a as real) < frame as real + 1.0;
    }
    if frame as real - 0.5 <= w.end * fps {
      assert frame as real < b as real + 1.0;
    }
  }

  /** Both ends of a word's window count as active. */
  lemma WordActiveAtBounds(w: Word, fps: real)
    requires w.start <= w.end && fps >= 0.0
    ensures IsWordActive(w, ToFrame(w.start, fps), fps)
    ensures IsWordActive(w, ToFrame(w.end, fps), fps)
  {
    ToFrameMonotone(w.start, w.end, fps);
  }

  predicate AllNonEmpty(groups: seq<seq<Word>>) {
    forall k :: 0 <= k < |groups| ==> |groups[k]| > 0
  }

  /** A group is shown from its first word's start frame to its last word's end
      frame, both inclusive. */
  predicate InWindow(g: seq<Word>, frame: int, fps: real)
    requires |g| > 0
  {
    ToFrame(g[0].start, fps) <= frame <= ToFrame(g[|g| - 1].end, fps)
  }

  /** Group `k` is the first one whose window holds `frame`. */
  predicate FirstInWindow(groups: seq<seq<Word>>, k: int, frame: int, fps: real)
    requires AllNonEmpty(groups)
  {
    0 <= k < |groups| && InWindow(groups[k], frame, fps)
    && forall j :: 0 <= j < k ==> !InWindow(groups[j], frame, fps)
  }

  /** The group `findActiveGroup` returns: the first whose window holds the frame,
      or none when no window does. */
  function ActiveGroup(groups: seq<seq<Word>>, frame: int, fps: real): (r: Option<seq<Word>>)
    requires AllNonEmpty(groups)
    ensures r.None? <==> forall k :: 0 <= k < |groups| ==> !InWindow(groups[k], frame, fps)
    ensures r.Some? ==> exists k :: FirstInWindow(groups, k, frame, fps) && r.value == groups[k]
  {
    if |groups| == 0 then None
    else if InWindow(groups[0], frame, fps) then
      assert FirstInWindow(groups, 0, frame, fps);
      Some(groups[0])
    else
      var r := ActiveGroup(groups[1..], frame, fps);
      assert r.Some? ==> exists k :: FirstInWindow(groups[1..], k, frame, fps) && r.value == groups[1..][k];
      assert forall k :: FirstInWindow(groups[1..], k, frame, fps) ==> FirstInWindow(groups, k + 1, frame, fps);
      r
  }

  /** `findActiveGroup(groups, frame, fps)`: scans the groups in order and returns
      the first whose window holds the frame. */
  method FindActiveGroup(groups: seq<seq<Word>>, frame: int, fps: real) returns (r: Option<seq<Word>>)
    requires AllNonEmpty(groups)
    ensures r == ActiveGroup(groups, frame, fps)
  {
    for i := 0 to |groups|
      invariant ActiveGroup(groups, frame, fps) == ActiveGroup(groups[i..], frame, fps)
    {
      var group := groups[i];
      var start := ToFrame(group[0].start, fps);
      var end := ToFrame(group[|group| - 1].end, fps);
      if frame >= start && frame <= end {
        return Some(group);
      }
      assert groups[i..][1..] == groups[i + 1..];
    }
    return None;
  }

  /** Words are chronological when every word ends no later than any later word
      starts. */
  predicate Chronological(ws: seq<Word>) {
    forall i, j :: 0 <= i < j < |ws| ==> ws[i].end <= ws[j].start
  }

  /** For chronological words, every word of an earlier group ends no later than
      any word of a later group starts. */
  lemma {:induction false} GroupsChronological(ws: seq<Word>, size: nat, j: nat, k: nat, a: nat, b: nat)
    requires size >= 1 && Chronological(ws)
    requires j < k < |Groups(ws, size)|
    requires a < |Groups(ws, size)[j]| && b < |Groups(ws, size)[k]|
    ensures Groups(ws, size)[j][a].end <= Groups(ws, size)[k][b].start
    decreases |ws|
  {
    var t := Take(|ws|, size);
    var gs := Groups(ws, size);
    var rest := Groups(ws[t..], size);
    assert Chronological(ws[t..]) by {
      forall i, i' | 0 <= i < i' < |ws[t..]| ensures ws[t..][i].end <= ws[t..][i'].start {
        assert ws[t..][i] == ws[t + i] && ws[t..][i'] == ws[t + i'];
      }
    }
    if j == 0 {
      GroupsPartition(ws[t..], size);
      var w := rest[k - 1][b];
      InFlatten(rest, k - 1, b);
      var p :| 0 <= p < |ws[t..]| && ws[t..][p] == w;
      assert gs[0][a] == ws[a];
      assert ws[t..][p] == ws[t + p];
    } else {
      GroupsChronological(ws[t..], size, j - 1, k - 1, a, b);
    }
  }

  lemma {:induction false} InFlatten(gs: seq<seq<Word>>, k: nat, b: nat)
    requires k < |gs| && b < |gs[k]|
    ensures exists p :: 0 <= p < |Flatten(gs)| && Flatten(gs)[p] == gs[k][b]
  {
    if k == 0 {
      assert Flatten(gs)[b] == gs[0][b];
    } else {
      InFlatten(gs[1..], k - 1, b);
      var p :| 0 <= p < |Flatten(gs[1..])| && Flatten(gs[1..])[p] == gs[1..][k - 1][b];
      assert Flatten(gs)[|gs[0]| + p] == gs[k][b];
    }
  }

  /** With chronological words, a frame after the start of group `k`'s window and
      within it selects group `k`: no earlier window reaches past that start. */
  lemma ActiveGroupInside(ws: seq<Word>, size: nat, k: nat, frame: int, fps: real)
    requires size >= 1 && Chronological(ws) && fps >= 0.0
    requires k < |Groups(ws, size)|
    requires AllNonEmpty(Groups(ws, size))
    requires ToFrame(Groups(ws, size)[k][0].start, fps) < frame <= ToFrame(Groups(ws, size)[k][|Groups(ws, size)[k]| - 1].end, fps)
    ensures ActiveGroup(Groups(ws, size), frame, fps) == Some(Groups(ws, size)[k])
  {
    var gs := Groups(ws, size);
    forall j | 0 <= j < k ensures !InWindow(gs[j], frame, fps) {
      GroupsChronological(ws, size, j, k, |gs[j]| - 1, 0);
      ToFrameMonotone(gs[j][|gs[j]| - 1].end, gs[k][0].start, fps);
    }
    assert FirstInWindow(gs, k, frame, fps);
    var r := ActiveGroup(gs, frame, fps);
    var k' :| FirstInWindow(gs, k', frame, fps) && r.value == gs[k'];
    assert k' == k;
  }

  /** The word `word-pop` shows: the first word of the whole transcript that is
      active at the frame, or none. */
  function ActiveWord(words: seq<Word>, frame: int, fps: real): (r: Option<Word>)
    ensures r.None? <==> forall i :: 0 <= i < |words| ==> !IsWordActive(words[i], frame, fps)
    ensures r.Some? ==> exists i :: (0 <= i < |words| && words[i] == r.value
      && IsWordActive(words[i], frame, fps)
      && forall j :: 0 <= j < i ==> !IsWordActive(words[j], frame, fps))
  {
    Find(words, (w: Word) => IsWordActive(w, frame, fps))
  }

  // ---------------------------------------------------------------------------
  // Emoji overlays
  // ---------------------------------------------------------------------------

  /** An emoji cue: the frame its animation starts at and the clip to show. */
  datatype EmojiCue = EmojiCue(startFrame: real, emojiUrl: string)

  /** A shown cue and the horizontal slot (percent from the left) it takes. */
  datatype Overlay = Overlay(cue: EmojiCue, left: int)

  /** A cue is shown for 61 frames: from its start frame to 60 frames later. */
  predicate CueVisible(cue: EmojiCue, frame: int) {
    cue.startFrame <= frame as real <= cue.startFrame + 60.0
  }

  const Positions: seq<int> := [25, 50, 75]

  /** The shown cues, in their original order. */
  function VisibleCues(cues: seq<EmojiCue>, frame: int): (r: seq<EmojiCue>)
    ensures |r| <= |cues|
    ensures forall c :: multiset(r)[c] == if CueVisible(c, frame) then multiset(cues)[c] else 0
  {
    if |cues| == 0 then []
    else
      assert cues == [cues[0]] + cues[1..];
      (if CueVisible(cues[0], frame) then [cues[0]] else []) + VisibleCues(cues[1..], frame)
  }

  /** Filtering keeps the cues' order: the shown cues of two runs of cues are
      those of the first run followed by those of the second. */
  lemma {:induction false} VisibleCuesConcat(a: seq<EmojiCue>, b: seq<EmojiCue>, frame: int)
    ensures VisibleCues(a + b, frame) == VisibleCues(a, frame) + VisibleCues(b, frame)
    decreases |a|
  {
    if |a| == 0 {
      assert a + b == b;
    } else {
      var head := if CueVisible(a[0], frame) then [a[0]] else [];
      assert (a + b)[0] == a[0] && (a + b)[1..] == a[1..] + b;
      VisibleCuesCons(a + b, frame);
      VisibleCuesCons(a, frame);
      VisibleCuesConcat(a[1..], b, frame);
      CuesAssoc(head, VisibleCues(a[1..], frame), VisibleCues(b, frame));
    }
  }

  lemma VisibleCuesCons(cues: seq<EmojiCue>, frame: int)
    requires |cues| > 0
    ensures VisibleCues(cues, frame) ==
      (if CueVisible(cues[0], frame) then [cues[0]] else []) + VisibleCues(cues[1..], frame)
  {
  }

  lemma CuesAssoc(a: seq<EmojiCue>, b: seq<EmojiCue>, c: seq<EmojiCue>)
    ensures a + (b + c) == (a + b) + c
  {
  }

  /** A single cue is shown exactly when it is visible. */
  lemma VisibleCuesSingle(c: EmojiCue, frame: int)
    ensures VisibleCues([c], frame) == if CueVisible(c, frame) then [c] else []
  {
    assert [c][1..] == [];
  }

  /** The slot (percent from the left) of the `i`th shown cue. */
  function Slot(i: nat): int {
    Positions[i % 3]
  }

  /** Slots are one of three positions, neighbours never share one, and they
      repeat every three cues. */
  lemma SlotsCycle(i: nat)
    ensures Slot(i) == 25 || Slot(i) == 50 || Slot(i) == 75
    ensures Slot(i) != Slot(i + 1) && Slot(i) == Slot(i + 3)
  {
  }

  /** The overlays `emoji-auto` draws: the shown cues of `emojiCues || []`, the
      `i`th of them in slot `Positions[i % 3]`. */
  function EmojiOverlays(cues: Option<seq<EmojiCue>>, frame: int): (r: seq<Overlay>)
    ensures cues.None? ==> r == []
    ensures |r| == |VisibleCues(if cues.Some? then cues.value else [], frame)|
    ensures forall i :: 0 <= i < |r| ==>
      r[i] == Overlay(VisibleCues(if cues.Some? then cues.value else [], frame)[i], Slot(i))
  {
    var shown := VisibleCues(if cues.Some? then cues.value else [], frame);
    seq(|shown|, i requires 0 <= i < |shown| => Overlay(shown[i], Positions[i % 3]))
  }

  // ---------------------------------------------------------------------------
  // Style dispatch
  // ---------------------------------------------------------------------------

  datatype Style = HeatGlow | Elegant | WordPop | Cinematic | EmojiAuto

  /** The `switch (style)` of `CaptionsComposition`: any other name renders as
      `heat-glow`. */
  function StyleOf(name: string): (s: Style)
    ensures s == HeatGlow <==> name !in {"elegant", "word-pop", "cinematic", "emoji-auto"}
    ensures s == Elegant <==> name == "elegant"
    ensures s == WordPop <==> name == "word-pop"
    ensures s == Cinematic <==> name == "cinematic"
    ensures s == EmojiAuto <==> name == "emoji-auto"
  {
    match name
    case "heat-glow" => HeatGlow
    case "elegant" => Elegant
    case "word-pop" => WordPop
    case "cinematic" => Cinematic
    case "emoji-auto" => EmojiAuto
    case _ => HeatGlow
  }

  /** The group size a style segments with; `word-pop` does not group. */
  function GroupSize(s: Style): (size: Option<nat>)
    ensures size.None? <==> s == WordPop
    ensures s == Cinematic ==> size == Some(6)
    ensures s in {HeatGlow, Elegant, EmojiAuto} ==> size == Some(4)
  {
    match s
    case HeatGlow => Some(4)
    case Elegant => Some(4)
    case WordPop => None
    case Cinematic => Some(6)
    case EmojiAuto => Some(4)
  }

  /** By style name: `cinematic` groups by 6, `word-pop` does not group, and
      every other name, unknown ones included, groups by 4. */
  lemma GroupSizeByName(name: string)
    ensures GroupSize(StyleOf(name)) ==
      if name == "word-pop" then None else if name == "cinematic" then Some(6) else Some(4)
  {
  }

  /** What the caption layer shows at one frame. */
  datatype Caption =
    | NoCaption
    | GroupCaption(group: seq<Word>, highlighted: seq<bool>)
    | PlainGroup(group: seq<Word>)
    | SingleWord(word: Word)

  datatype View = View(caption: Caption, overlays: seq<Overlay>)

  /** `renderCaptions()` inside `CaptionsComposition`, reduced to which words are
      shown and highlighted and which emoji overlays are drawn. */
  method RenderCaptions(style: string, words: seq<Word>, frame: int, fps: real, emojiCues: Option<seq<EmojiCue>>)
    returns (v: View)
    ensures StyleOf(style) != EmojiAuto ==> v.overlays == []
    ensures StyleOf(style) == EmojiAuto ==> v.overlays == EmojiOverlays(emojiCues, frame)
    ensures StyleOf(style) == WordPop ==>
      v.caption == match ActiveWord(words, frame, fps) case None => NoCaption case Some(w) => SingleWord(w)
    ensures GroupSize(StyleOf(style)).Some? ==>
      var gs := Groups(words, GroupSize(StyleOf(style)).value);
      AllNonEmpty(gs) &&
      match ActiveGroup(gs, frame, fps)
      case None => v.caption == NoCaption
      case Some(g) =>
        if StyleOf(style) == Cinematic then v.caption == PlainGroup(g)
        else (v.caption.GroupCaption? && v.caption.group == g && |v.caption.highlighted| == |g|
          && forall i :: 0 <= i < |g| ==> v.caption.highlighted[i] == IsWordActive(g[i], frame, fps))
  {
    var s := StyleOf(style);
    if s == WordPop {
      var w := ActiveWord(words, frame, fps);
      return View(if w.Some? then SingleWord(w.value) else NoCaption, []);
    }
    var size := GroupSize(s).value;
    var groups := GroupWords(words, size);
    var group := FindActiveGroup(groups, frame, fps);
    var caption := NoCaption;
    if group.Some? {
      var g := group.value;
      if s == Cinematic {
        caption := PlainGroup(g);
      } else {
        caption := GroupCaption(g, seq(|g|, i requires 0 <= i < |g| => IsWordActive(g[i], frame, fps)));
      }
    }
    var overlays := if s == EmojiAuto then EmojiOverlays(emojiCues, frame) else [];
    return View(caption, overlays);
  }
}
