/**
 * read_simulation_events in the event-driven animation script: the log is
 * the particle count N, then blocks of a time line followed by N lines. A
 * block's key is its stripped time line; blocks with the same key are merged
 * in order of first appearance, lines that are not five numbers are dropped,
 * and groups left without states are omitted.
 */
module EventGroups {
  import opened Common

  /** One state of a block: 'particle_id', 'x', 'y', 'vx', 'vy'. */
  datatype Entry = Entry(particleId: int, x: real, y: real, vx: real, vy: real)

  /** One output group: float(time_str) and the merged states. */
  datatype Group = Group(time: real, events: seq<Entry>)

  /** The try block: exactly five fields, an integer id and four numbers; None where Python passes. */
  function EntryOf(line: Line): (r: Option<Entry>)
    ensures r.Some? <==> (|line| == 5 && line[0].asInt.Some? && line[1].asFloat.Some? && line[2].asFloat.Some?
      && line[3].asFloat.Some? && line[4].asFloat.Some?)
    ensures r.Some? ==> r.value == Entry(line[0].asInt.value, line[1].asFloat.value, line[2].asFloat.value,
      line[3].asFloat.value, line[4].asFloat.value)
  {
    if |line| == 5 && line[0].asInt.Some? && line[1].asFloat.Some? && line[2].asFloat.Some?
      && line[3].asFloat.Some? && line[4].asFloat.Some?
    then Some(Entry(line[0].asInt.value, line[1].asFloat.value, line[2].asFloat.value, line[3].asFloat.value, line[4].asFloat.value))
    else None
  }

  /** The states a block's lines contribute, in order. */
  function Entries(ls: seq<Line>): seq<Entry>
  {
    if |ls| == 0 then []
    else
      var es := Entries(ls[..|ls| - 1]);
      match EntryOf(ls[|ls| - 1])
      case None => es
      case Some(e) => es + [e]
  }

  /** A block keeps at most one state per line: exactly the lines that are five numbers. */
  lemma {:induction false} EntriesAreFiveNumberLines(ls: seq<Line>)
    ensures |Entries(ls)| <= |ls|
    ensures forall e :: e in Entries(ls) <==> exists j :: 0 <= j < |ls| && EntryOf(ls[j]) == Some(e)
  {
    if |ls| > 0 {
      var prefix := ls[..|ls| - 1];
      EntriesAreFiveNumberLines(prefix);
      assert forall j :: 0 <= j < |prefix| ==> prefix[j] == ls[j];
    }
  }

  /** One block of the log: its key (the time line) and the states its lines give. */
  datatype Block = Block(key: Line, entries: seq<Entry>)

  /** The block whose time line is at index start. */
  function BlockAt(lines: seq<Line>, n: nat, start: nat): Block
    requires start + 1 + n <= |lines|
  {
    Block(lines[start], Entries(lines[start + 1..start + 1 + n]))
  }

  /**
   * The while loop from index i: the next N lines must exist, and the next
   * block starts N + 1 lines further on.
   */
  function Blocks(lines: seq<Line>, n: nat, i: nat): Result<seq<Block>>
    decreases |lines| - i
  {
    if i >= |lines| then Ok([])
    else if i + 1 + n > |lines| then Err(IndexError(|lines|))
    else
      match Blocks(lines, n, i + 1 + n)
      case Err(e) => Err(e)
      case Ok(rest) => Ok([BlockAt(lines, n, i)] + rest)
  }

  /** The blocks read before, followed by those the rest of the loop reads. */
  function Prepend(read: seq<Block>, rest: Result<seq<Block>>): Result<seq<Block>>
  {
    match rest
    case Err(e) => Err(e)
    case Ok(bs) => Ok(read + bs)
  }

  /** The first line of block s when the blocks start at index i: each block spans N + 1 lines. */
  function Start(i: nat, n: nat, s: nat): nat
    decreases s
  {
    if s == 0 then i else Start(i + 1 + n, n, s - 1)
  }

  /** Block s starts s (N + 1) lines after the first. */
  lemma {:induction false} StartIsStride(i: nat, n: nat, s: nat)
    ensures Start(i, n, s) == i + s * (n + 1)
    decreases s
  {
    if s > 0 {
      StartIsStride(i + 1 + n, n, s - 1);
      assert (s - 1) * (n + 1) + (n + 1) == s * (n + 1);
    }
  }

  /** Block s read from index i starts at Start(i, N, s) and covers the N lines after it. */
  lemma {:induction false} BlocksStride(lines: seq<Line>, n: nat, i: nat)
    requires Blocks(lines, n, i).Ok?
    ensures forall s :: 0 <= s < |Blocks(lines, n, i).value| ==>
      Start(i, n, s) + 1 + n <= |lines| && Blocks(lines, n, i).value[s] == BlockAt(lines, n, Start(i, n, s))
    decreases |lines| - i
  {
    if i < |lines| {
      BlocksStride(lines, n, i + 1 + n);
      var rest := Blocks(lines, n, i + 1 + n).value;
      var bs := Blocks(lines, n, i).value;
      forall s | 1 <= s < |bs|
        ensures bs[s] == rest[s - 1] && Start(i, n, s) == Start(i + 1 + n, n, s - 1)
      {
      }
    }
  }

  /** events_per_time: the keys in insertion order and the merged states of each. */
  datatype Merged = Merged(order: seq<Line>, groups: map<Line, seq<Entry>>)

  /** The dictionary after the blocks bs: a new key is inserted with [], then the states are appended. */
  function Merge(bs: seq<Block>): Merged
  {
    if |bs| == 0 then Merged([], map[])
    else
      var m := Merge(bs[..|bs| - 1]);
      var b := bs[|bs| - 1];
      if b.key in m.groups then Merged(m.order, m.groups[b.key := m.groups[b.key] + b.entries])
      else Merged(m.order + [b.key], m.groups[b.key := b.entries])
  }

  /** A reference definition: the states of all blocks with that key, concatenated in block order. */
  function Gathered(bs: seq<Block>, key: Line): seq<Entry>
  {
    if |bs| == 0 then []
    else Gathered(bs[..|bs| - 1], key) + (if bs[|bs| - 1].key == key then bs[|bs| - 1].entries else [])
  }

  /**
   * Merging keeps each key once, and the keys are exactly those of the
   * blocks; the dictionary and the key list agree.
   */
  lemma {:induction false} MergeKeys(bs: seq<Block>)
    ensures forall key :: key in Merge(bs).groups <==> key in Merge(bs).order
    ensures forall a, b :: 0 <= a < b < |Merge(bs).order| ==> Merge(bs).order[a] != Merge(bs).order[b]
    ensures forall key :: key in Merge(bs).order <==> exists s :: 0 <= s < |bs| && bs[s].key == key
  {
    if |bs| > 0 {
      var prefix := bs[..|bs| - 1];
      MergeKeys(prefix);
      var m0 := Merge(prefix);
      var m := Merge(bs);
      var b := bs[|bs| - 1];
      if b.key in m0.groups {
        assert m == Merged(m0.order, m0.groups[b.key := m0.groups[b.key] + b.entries]);
      } else {
        assert m == Merged(m0.order + [b.key], m0.groups[b.key := b.entries]);
      }
      forall key | key in m.order
        ensures exists s :: 0 <= s < |bs| && bs[s].key == key
      {
        if key != bs[|bs| - 1].key {
          var s :| 0 <= s < |prefix| && prefix[s].key == key;
          assert bs[s].key == key;
        }
      }
      forall key, s | 0 <= s < |bs| && bs[s].key == key
        ensures key in m.order
      {
        if s < |prefix| {
          assert prefix[s].key == key;
        }
      }
    }
  }

  /** Each key's merged states are those of all its blocks, concatenated in order. */
  lemma {:induction false} MergeGathers(bs: seq<Block>)
    ensures forall key :: Gathered(bs, key) == (if key in Merge(bs).groups then Merge(bs).groups[key] else [])
  {
    if |bs| > 0 {
      MergeGathers(bs[..|bs| - 1]);
    }
  }

  /** Keys are listed in order of first appearance among the blocks. */
  lemma {:induction false} MergeFirstAppearance(bs: seq<Block>)
    ensures forall a, b, s' :: 0 <= a < b < |Merge(bs).order| && 0 <= s' < |bs| && bs[s'].key == Merge(bs).order[b] ==>
      exists s :: 0 <= s < s' && bs[s].key == Merge(bs).order[a]
  {
    if |bs| > 0 {
      var prefix := bs[..|bs| - 1];
      MergeFirstAppearance(prefix);
      MergeKeys(prefix);
      var m0 := Merge(prefix);
      var m := Merge(bs);
      forall a, c, s' | 0 <= a < c < |m.order| && 0 <= s' < |bs| && bs[s'].key == m.order[c]
        ensures exists s :: 0 <= s < s' && bs[s].key == m.order[a]
      {
        assert m.order[a] == m0.order[a] && m0.order[a] in m0.order;
        if s' == |bs| - 1 {
          if c < |m0.order| {
            assert m.order[c] == m0.order[c];
            assert m0.order[c] != m0.order[a];
          }
          var s :| 0 <= s < |prefix| && prefix[s].key == m.order[a];
          assert bs[s].key == m.order[a];
        } else {
          assert prefix[s'].key == m.order[c];
          assert m.order[c] in m0.order;
          assert m.order[c] == m0.order[c];
          var s :| 0 <= s < s' && prefix[s].key == m0.order[a];
          assert bs[s].key == m.order[a];
        }
      }
    }
  }

  /** The indices of order whose group is non-empty, ascending. */
  function Kept(order: seq<Line>, groups: map<Line, seq<Entry>>, k: nat): (idx: seq<nat>)
    requires k <= |order| && forall key :: key in order ==> key in groups
    ensures forall m :: 0 <= m < |idx| ==> idx[m] < k && groups[order[idx[m]]] != []
    ensures forall m, m' :: 0 <= m < m' < |idx| ==> idx[m] < idx[m']
    ensures forall j :: 0 <= j < k && groups[order[j]] != [] ==> j in idx
  {
    if k == 0 then []
    else if groups[order[k - 1]] != [] then Kept(order, groups, k - 1) + [k - 1]
    else Kept(order, groups, k - 1)
  }

  /** The final for loop over the first k keys: non-empty groups with float(time_str). */
  function Collect(order: seq<Line>, groups: map<Line, seq<Entry>>, k: nat): Result<seq<Group>>
    requires k <= |order| && forall key :: key in order ==> key in groups
  {
    if k == 0 then Ok([])
    else
      match Collect(order, groups, k - 1)
      case Err(e) => Err(e)
      case Ok(gs) =>
        var key := order[k - 1];
        if groups[key] == [] then Ok(gs)
        else
          match LineFloat(key)
          case None => Err(ValueError(k - 1))
          case Some(t) => Ok(gs + [Group(t, groups[key])])
  }

  /**
   * The output has one group per key with states, in key order, with the
   * states merged for that key and the key's value as its time.
   */
  lemma {:induction false} CollectKeepsNonEmpty(order: seq<Line>, groups: map<Line, seq<Entry>>, k: nat)
    requires k <= |order| && forall key :: key in order ==> key in groups
    requires Collect(order, groups, k).Ok?
    ensures |Collect(order, groups, k).value| == |Kept(order, groups, k)|
    ensures forall m :: 0 <= m < |Collect(order, groups, k).value| ==>
      Collect(order, groups, k).value[m].events == groups[order[Kept(order, groups, k)[m]]]
      && Collect(order, groups, k).value[m].events != []
      && LineFloat(order[Kept(order, groups, k)[m]]) == Some(Collect(order, groups, k).value[m].time)
  {
    if k > 0 {
      CollectKeepsNonEmpty(order, groups, k - 1);
      var key := order[k - 1];
      if groups[key] != [] {
        assert Kept(order, groups, k) == Kept(order, groups, k - 1) + [k - 1];
        assert Collect(order, groups, k).value
          == Collect(order, groups, k - 1).value + [Group(LineFloat(key).value, groups[key])];
      } else {
        assert Kept(order, groups, k) == Kept(order, groups, k - 1);
        assert Collect(order, groups, k) == Collect(order, groups, k - 1);
      }
    }
  }

  /** read_simulation_events(filename) on the file's lines. */
  function SimulationEvents(lines: seq<Line>): Result<seq<Group>>
  {
    if |lines| == 0 then Err(IndexError(0))
    else
      match LineInt(lines[0])
      case None => Err(ValueError(0))
      case Some(n) =>
        if n < 0 then Err(NegativeCount(0))
        else
          match MergedLog(lines, n)
          case Err(e) => Err(e)
          case Ok(m) => Collect(m.order, m.groups, |m.order|)
  }

  /** events_per_time after the while loop over the whole log. */
  function MergedLog(lines: seq<Line>, n: nat): (r: Result<Merged>)
    ensures r.Ok? ==> forall key :: key in r.value.order ==> key in r.value.groups
  {
    match Blocks(lines, n, 1)
    case Err(e) => Err(e)
    case Ok(bs) =>
      MergeKeys(bs);
      Ok(Merge(bs))
  }

  /** read_simulation_events(filename), on the file's lines. */
  method ReadSimulationEvents(lines: seq<Line>) returns (r: Result<seq<Group>>)
    ensures r == SimulationEvents(lines)
  {
    if |lines| == 0 {
      return Err(IndexError(0));
    }
    var count := LineInt(lines[0]);
    if count.None? {
      return Err(ValueError(0));
    }
    var n := count.value;
    if n < 0 {
      return Err(NegativeCount(0));
    }
    var merged := MergeBlocks(lines, n);
    if merged.Err? {
      return Err(merged.error);
    }
    r := CollectGroups(merged.value.order, merged.value.groups);
  }

  /** The while loop: each block's key is inserted once, and its states are appended. */
  method MergeBlocks(lines: seq<Line>, n: nat) returns (r: Result<Merged>)
    ensures r == MergedLog(lines, n)
  {
    var order: seq<Line> := [];
    var eventsPerTime: map<Line, seq<Entry>> := map[];
    ghost var blocks: seq<Block> := [];
    var i := 1;
    assert Blocks(lines, n, 1).Ok? ==> [] + Blocks(lines, n, 1).value == Blocks(lines, n, 1).value;
    while i < |lines|
      invariant i >= 1
      invariant Blocks(lines, n, 1) == Prepend(blocks, Blocks(lines, n, i))
      invariant Merge(blocks) == Merged(order, eventsPerTime)
      decreases |lines| - i
    {
      var next := AddBlock(lines, n, i, order, eventsPerTime, blocks);
      if next.Err? {
        assert Blocks(lines, n, i) == Err(IndexError(|lines|));
        return Err(next.error);
      }
      BlocksStep(lines, n, i, blocks);
      blocks := blocks + [BlockAt(lines, n, i)];
      order, eventsPerTime := next.value.order, next.value.groups;
      i := i + 1 + n;
    }
    assert Blocks(lines, n, i) == Ok([]) && blocks + [] == blocks;
    return Ok(Merged(order, eventsPerTime));
  }

  /**
   * The body of the while loop on the block at index i: the key is inserted
   * if new, then the N lines after it are read into its states.
   */
  method AddBlock(lines: seq<Line>, n: nat, i: nat, order: seq<Line>, eventsPerTime: map<Line, seq<Entry>>,
                  ghost blocks: seq<Block>) returns (r: Result<Merged>)
    requires i < |lines| && Merge(blocks) == Merged(order, eventsPerTime)
    ensures i + 1 + n > |lines| ==> r == Err(IndexError(|lines|))
    ensures i + 1 + n <= |lines| ==> r == Ok(Merge(blocks + [BlockAt(lines, n, i)]))
  {
    var timeStr := lines[i];
    var keys, groups := order, eventsPerTime;
    if timeStr !in groups {
      keys := keys + [timeStr];
      groups := groups[timeStr := []];
    }
    var merged := ReadStates(lines, i + 1, n, groups[timeStr]);
    if merged.Err? {
      return Err(merged.error);
    }
    groups := groups[timeStr := merged.value];
    var b := BlockAt(lines, n, i);
    assert b.key == timeStr && b.entries == Entries(lines[i + 1..i + 1 + n]);
    MergeStep(blocks, b, order, eventsPerTime);
    if timeStr !in eventsPerTime {
      assert merged.value == [] + b.entries == b.entries;
      assert groups == eventsPerTime[timeStr := b.entries];
      assert keys == order + [timeStr];
    } else {
      assert merged.value == eventsPerTime[timeStr] + b.entries;
      assert groups == eventsPerTime[timeStr := eventsPerTime[timeStr] + b.entries];
    }
    return Ok(Merged(keys, groups));
  }

  /** One more block extends the dictionary as the loop body does. */
  lemma MergeStep(blocks: seq<Block>, b: Block, order: seq<Line>, groups: map<Line, seq<Entry>>)
    requires Merge(blocks) == Merged(order, groups)
    ensures b.key in groups ==> Merge(blocks + [b]) == Merged(order, groups[b.key := groups[b.key] + b.entries])
    ensures b.key !in groups ==> Merge(blocks + [b]) == Merged(order + [b.key], groups[b.key := b.entries])
  {
    assert (blocks + [b])[..|blocks|] == blocks;
  }

  /** A complete block at index i moves from the rest of the loop to the blocks read. */
  lemma BlocksStep(lines: seq<Line>, n: nat, i: nat, read: seq<Block>)
    requires i + 1 + n <= |lines|
    ensures Prepend(read, Blocks(lines, n, i)) == Prepend(read + [BlockAt(lines, n, i)], Blocks(lines, n, i + 1 + n))
  {
    match Blocks(lines, n, i + 1 + n)
    case Err(e) =>
    case Ok(rest) =>
      assert read + ([BlockAt(lines, n, i)] + rest) == (read + [BlockAt(lines, n, i)]) + rest;
  }

  /**
   * The inner for loop: the N lines from index start are read, and those
   * that are five numbers are appended to the key's states.
   */
  method ReadStates(lines: seq<Line>, start: nat, n: nat, states: seq<Entry>) returns (r: Result<seq<Entry>>)
    requires start <= |lines|
    ensures start + n <= |lines| ==> r == Ok(states + Entries(lines[start..start + n]))
    ensures start + n > |lines| ==> r == Err(IndexError(|lines|))
  {
    var merged := states;
    for j := 0 to n
      invariant start + j <= |lines|
      invariant merged == states + Entries(lines[start..start + j])
    {
      if start + j >= |lines| {
        return Err(IndexError(|lines|));
      }
      var entry := EntryOf(lines[start + j]);
      assert lines[start..start + j + 1][..j] == lines[start..start + j];
      if entry.Some? {
        merged := merged + [entry.value];
      }
    }
    return Ok(merged);
  }

  /** The final for loop: every key with states, in insertion order, becomes a group. */
  method CollectGroups(order: seq<Line>, eventsPerTime: map<Line, seq<Entry>>) returns (r: Result<seq<Group>>)
    requires forall key :: key in order ==> key in eventsPerTime
    ensures r == Collect(order, eventsPerTime, |order|)
  {
    var events: seq<Group> := [];
    for k := 0 to |order|
      invariant Collect(order, eventsPerTime, k) == Ok(events)
    {
      var timeStr := order[k];
      if eventsPerTime[timeStr] != [] {
        var time := LineFloat(timeStr);
        if time.None? {
          CollectStaysFailed(order, eventsPerTime, k + 1, |order|);
          return Err(ValueError(k));
        }
        events := events + [Group(time.value, eventsPerTime[timeStr])];
      }
    }
    return Ok(events);
  }

  lemma {:induction false} CollectStaysFailed(order: seq<Line>, groups: map<Line, seq<Entry>>, k: nat, m: nat)
    requires k <= m <= |order| && forall key :: key in order ==> key in groups
    requires Collect(order, groups, k).Err?
    ensures Collect(order, groups, m) == Collect(order, groups, k)
    decreases m - k
  {
    if k < m {
      CollectStaysFailed(order, groups, k, m - 1);
    }
  }

  /** A group made from the key's blocks: their states in order, none empty, at the key's time. */
  predicate GroupOfKey(bs: seq<Block>, g: Group, key: Line)
  {
    g.events == Gathered(bs, key) && g.events != [] && LineFloat(key) == Some(g.time)
  }

  /**
   * Each output group is the time of some block's key and all the states
   * of the blocks with that key, in block order, and it is not empty.
   */
  lemma GroupsAreMergedBlocks(lines: seq<Line>, n: nat)
    requires |lines| > 0 && LineInt(lines[0]) == Some(n as int)
    requires SimulationEvents(lines).Ok?
    ensures Blocks(lines, n, 1).Ok?
    ensures forall m :: 0 <= m < |SimulationEvents(lines).value| ==>
      exists s :: 0 <= s < |Blocks(lines, n, 1).value| &&
        GroupOfKey(Blocks(lines, n, 1).value, SimulationEvents(lines).value[m], Blocks(lines, n, 1).value[s].key)
  {
    var bs := Blocks(lines, n, 1).value;
    var merged := Merge(bs);
    assert MergedLog(lines, n) == Ok(merged);
    var gs := SimulationEvents(lines).value;
    assert Collect(merged.order, merged.groups, |merged.order|) == Ok(gs);
    MergeKeys(bs);
    MergeGathers(bs);
    CollectKeepsNonEmpty(merged.order, merged.groups, |merged.order|);
    var idx := Kept(merged.order, merged.groups, |merged.order|);
    forall m | 0 <= m < |gs|
      ensures exists s :: 0 <= s < |bs| && GroupOfKey(bs, gs[m], bs[s].key)
    {
      var key := merged.order[idx[m]];
      assert key in merged.order;
      var s :| 0 <= s < |bs| && bs[s].key == key;
      assert GroupOfKey(bs, gs[m], bs[s].key);
    }
  }
}
