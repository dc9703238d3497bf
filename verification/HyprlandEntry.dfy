// The require line that scripts/install.sh inserts into hyprland.lua and
// scripts/uninstall.sh takes out again.

module HyprlandEntry {
  // A line of hyprland.lua by what the scripts' patterns find in it.
  datatype Line = InputRequire(text: string) | ModuleRequire(text: string) | Mention(text: string) | Plain(text: string)

  datatype EntryPoint =
    | NoEntryPoint
    | Lua(lines: seq<Line>, newline: bool, mode: nat)
    | LinkedLua(lines: seq<Line>)

  function LinesOf(entry: EntryPoint): seq<Line> {
    if entry.NoEntryPoint? then [] else entry.lines
  }

  const REQUIRE := ModuleRequire("require(\"hypr.xeneon_edge_agents\")")

  function Inserted(lines: seq<Line>): seq<Line> {
    if lines == [] then []
    else (if lines[0].InputRequire? then [lines[0], REQUIRE] else [lines[0]]) + Inserted(lines[1..])
  }

  // Drops every module require directly below an input require; `below` says
  // whether the line above the first is one.
  function Dropped(below: bool, lines: seq<Line>): seq<Line>
    decreases |lines|
  {
    if lines == [] then []
    else if below && lines[0].ModuleRequire? then Dropped(false, lines[1..])
    else [lines[0]] + Dropped(lines[0].InputRequire?, lines[1..])
  }

  // What the scripts count in the file.
  datatype Counts = Counts(inputs: nat, modules: nat, mentions: nat, adjacents: nat)

  function Count(below: bool, lines: seq<Line>): Counts
    decreases |lines|
  {
    if lines == [] then Counts(0, 0, 0, 0)
    else
      var line, c := lines[0], Count(lines[0].InputRequire?, lines[1..]);
      Counts(
        c.inputs + if line.InputRequire? then 1 else 0,
        c.modules + if line.ModuleRequire? then 1 else 0,
        c.mentions + if line.ModuleRequire? || line.Mention? then 1 else 0,
        c.adjacents + if below && line.ModuleRequire? then 1 else 0)
  }

  lemma Unfold(below: bool, line: Line, rest: seq<Line>)
    ensures Dropped(below, [line] + rest)
      == if below && line.ModuleRequire? then Dropped(false, rest) else [line] + Dropped(line.InputRequire?, rest)
    ensures var c := Count(line.InputRequire?, rest);
      Count(below, [line] + rest) == Counts(
        c.inputs + if line.InputRequire? then 1 else 0,
        c.modules + if line.ModuleRequire? then 1 else 0,
        c.mentions + if line.ModuleRequire? || line.Mention? then 1 else 0,
        c.adjacents + if below && line.ModuleRequire? then 1 else 0)
  {
    assert ([line] + rest)[1..] == rest;
  }

  // Removing undoes inserting, on every file.
  lemma {:induction false} RemoveUndoesInsert(lines: seq<Line>)
    ensures Dropped(false, Inserted(lines)) == lines
  {
    if lines != [] {
      var line, rest := lines[0], Inserted(lines[1..]);
      RemoveUndoesInsert(lines[1..]);
      if line.InputRequire? {
        Unfold(false, line, [REQUIRE] + rest);
        Unfold(true, REQUIRE, rest);
        assert Inserted(lines) == [line] + ([REQUIRE] + rest);
      } else {
        Unfold(false, line, rest);
      }
    }
  }

  // Each input require gains one module require, directly below it.
  lemma {:induction false} InsertedCounts(lines: seq<Line>)
    ensures var c := Count(false, lines);
      Count(false, Inserted(lines)) == Counts(c.inputs, c.modules + c.inputs, c.mentions + c.inputs, c.inputs)
  {
    if lines != [] {
      var line, rest := lines[0], Inserted(lines[1..]);
      InsertedCounts(lines[1..]);
      if line.InputRequire? {
        Unfold(false, line, [REQUIRE] + rest);
        Unfold(true, REQUIRE, rest);
        assert Inserted(lines) == [line] + ([REQUIRE] + rest);
        BelowOnlyCounts(lines[1..]);
      } else {
        Unfold(false, line, rest);
      }
    }
  }

  lemma BelowOnlyCounts(lines: seq<Line>)
    ensures Count(true, lines).(adjacents := 0) == Count(false, lines).(adjacents := 0)
  {
  }

  // A removal takes out the adjacent requires and keeps every other line.
  lemma {:induction false} DroppedCounts(below: bool, lines: seq<Line>)
    ensures |Dropped(below, lines)| + Count(below, lines).adjacents == |lines|
    ensures forall b: bool ::
      Count(b, Dropped(below, lines)).mentions + Count(below, lines).adjacents == Count(below, lines).mentions
    decreases |lines|
  {
    if lines != [] {
      var line := lines[0];
      DroppedCounts(if below && line.ModuleRequire? then false else line.InputRequire?, lines[1..]);
      forall b: bool {
        Unfold(b, line, Dropped(line.InputRequire?, lines[1..]));
      }
    }
  }

  // The lines that are no module require, in their order.
  function Remaining(lines: seq<Line>): seq<Line> {
    if lines == [] then [] else (if lines[0].ModuleRequire? then [] else [lines[0]]) + Remaining(lines[1..])
  }

  // A removal keeps every other line, in its place among the others.
  lemma {:induction false} DroppedKeepsLines(below: bool, lines: seq<Line>)
    ensures Remaining(Dropped(below, lines)) == Remaining(lines)
    decreases |lines|
  {
    if lines != [] {
      if below && lines[0].ModuleRequire? {
        DroppedKeepsLines(false, lines[1..]);
      } else {
        DroppedKeepsLines(lines[0].InputRequire?, lines[1..]);
        var rest := Dropped(lines[0].InputRequire?, lines[1..]);
        assert Dropped(below, lines)[1..] == rest;
      }
    }
  }
}
