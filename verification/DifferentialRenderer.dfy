/** The terminal and its differential renderer (src/Pi.TUI/Terminal.cs, src/Pi.TUI/TUI.cs). */
module Terminal {

  /** A terminal screen. `col == columns` is the state after the last column was written, before the
      next character wraps. */
  datatype Screen = Screen(rows: nat, columns: nat, cells: seq<string>, row: nat, col: nat) {
    predicate Valid() {
      && |cells| == rows && row < rows && col <= columns && 0 < columns
      && forall i | 0 <= i < rows :: |cells[i]| == columns
    }
  }

  function Blank(n: nat): (r: string)
    ensures |r| == n && forall i | 0 <= i < n :: r[i] == ' '
  {
    seq(n, i => ' ')
  }

  function BlankRows(n: nat, columns: nat): (r: seq<string>)
    ensures |r| == n && forall i | 0 <= i < n :: r[i] == Blank(columns)
  {
    seq(n, i => Blank(columns))
  }

  /** Moves down a line, scrolling at the bottom. */
  function LineFeed(s: Screen): (r: Screen)
    requires s.Valid()
    ensures r.Valid() && r.rows == s.rows && r.columns == s.columns
  {
    if s.row + 1 < s.rows then s.(row := s.row + 1)
    else s.(cells := s.cells[1..] + [Blank(s.columns)])
  }

  /** Prints one character at the cursor, wrapping after the last column. */
  function Print(s: Screen, c: char): (r: Screen)
    requires s.Valid()
    ensures r.Valid() && r.rows == s.rows && r.columns == s.columns
  {
    var t := if s.col == s.columns then LineFeed(s).(col := 0) else s;
    t.(cells := t.cells[t.row := t.cells[t.row][t.col := c]], col := t.col + 1)
  }

  function Put(s: Screen, c: char): (r: Screen)
    requires s.Valid()
    ensures r.Valid() && r.rows == s.rows && r.columns == s.columns
  {
    if c == '\r' then s.(col := 0) else if c == '\n' then LineFeed(s) else Print(s, c)
  }

  function PutAll(s: Screen, text: string, n: nat): (r: Screen)
    requires s.Valid() && n <= |text|
    ensures r.Valid() && r.rows == s.rows && r.columns == s.columns
  {
    if n == 0 then s else Put(PutAll(s, text, n - 1), text[n - 1])
  }

  predicate Plain(line: string) {
    forall i | 0 <= i < |line| :: ' ' <= line[i] != '\U{7F}'
  }

  /** The screen with a text in the cursor's row, from the cursor on, and the cursor behind it. */
  function Printed(s: Screen, text: string): Screen
    requires s.Valid() && s.col + |text| <= s.columns
  {
    s.(cells := s.cells[s.row := s.cells[s.row][..s.col] + text + s.cells[s.row][s.col + |text|..]],
       col := s.col + |text|)
  }

  /** Plain text that fits the rest of the row overwrites exactly the cells it covers. */
  lemma {:induction false} PrintsText(s: Screen, text: string, n: nat)
    requires s.Valid() && Plain(text) && n <= |text| && s.col + |text| <= s.columns
    ensures PutAll(s, text, n) == Printed(s, text[..n])
  {
    var row := s.cells[s.row];
    if n == 0 {
      assert row[..s.col] + text[..0] + row[s.col..] == row;
      assert s.cells[s.row := row] == s.cells;
    } else {
      PrintsText(s, text, n - 1);
      var before := row[..s.col] + text[..n - 1] + row[s.col + n - 1..];
      assert before[s.col + n - 1 := text[n - 1]] == row[..s.col] + text[..n] + row[s.col + n..];
    }
  }

  /** CR LF goes to the start of the next row; in the last row everything moves up. */
  lemma PrintsNewLine(s: Screen)
    requires s.Valid()
    ensures PutAll(s, "\r\n", 2) == LineFeed(s).(col := 0)
  {
    assert PutAll(s, "\r\n", 1) == s.(col := 0);
  }

  /** ECMA-48 section 8.3.22 (CUU): up `n` lines, at most to the first, in the same column. */
  function CursorUp(s: Screen, n: nat): (r: Screen)
    requires s.Valid()
    ensures r.Valid() && r.rows == s.rows && r.columns == s.columns
  {
    s.(row := if n <= s.row then s.row - n else 0)
  }

  /** ECMA-48 section 8.3.19 (CUD): down `n` lines, at most to the last. */
  function CursorDown(s: Screen, n: nat): (r: Screen)
    requires s.Valid()
    ensures r.Valid() && r.rows == s.rows && r.columns == s.columns
  {
    s.(row := if s.row + n < s.rows then s.row + n else s.rows - 1)
  }

  /** ECMA-48 section 8.3.39 (ED 0): erases from the cursor to the end of the screen. */
  function EraseBelow(s: Screen): (r: Screen)
    requires s.Valid()
    ensures r.Valid() && r.rows == s.rows && r.columns == s.columns
  {
    s.(cells := s.cells[..s.row] + [s.cells[s.row][..s.col] + Blank(s.columns - s.col)]
                + BlankRows(s.rows - s.row - 1, s.columns))
  }

  /** ECMA-48 sections 8.3.39 (ED 2) and 8.3.21 (CUP): erases everything and goes home. */
  function EraseAll(s: Screen): (r: Screen)
    requires s.Valid()
    ensures r.Valid() && r.rows == s.rows && r.columns == s.columns
  {
    s.(cells := BlankRows(s.rows, s.columns), row := 0, col := 0)
  }

  class ConsoleTerminal {
    var screen: Screen

    method Write(data: string)
      requires screen.Valid()
      modifies this
      ensures screen == PutAll(old(screen), data, |data|) && screen.Valid()
      ensures Plain(data) && old(screen).col + |data| <= old(screen).columns ==> screen == Printed(old(screen), data)
      ensures data == "\r\n" ==>
                screen == if old(screen).row + 1 < old(screen).rows
                          then old(screen).(row := old(screen).row + 1, col := 0)
        else old(screen).(cells := old(screen).cells[1..] + [Blank(old(screen).columns)], col := 0)
    {
      if Plain(data) && screen.col + |data| <= screen.columns {
        PrintsText(screen, data, |data|);
        assert data[..|data|] == data;
      }
      PrintsNewLine(screen);
      screen := PutAll(screen, data, |data|);
    }

    method MoveBy(lines: int)
      requires screen.Valid()
      modifies this
      ensures screen == if lines < 0 then CursorUp(old(screen), -lines) else CursorDown(old(screen), lines)
      ensures screen.Valid() && screen.cells == old(screen.cells) && screen.col == old(screen.col)
      ensures 0 <= old(screen.row) + lines < screen.rows ==> screen.row == old(screen.row) + lines
      ensures old(screen.row) + lines < 0 ==> screen.row == 0
      ensures old(screen.row) + lines >= screen.rows ==> screen.row == screen.rows - 1
    {
      if lines < 0 {
        screen := CursorUp(screen, -lines);
      } else if lines > 0 {
        screen := CursorDown(screen, lines);
      }
    }

    method ClearFromCursor()
      requires screen.Valid()
      modifies this
      ensures screen == EraseBelow(old(screen)) && screen.Valid()
      ensures forall i, j | 0 <= i < screen.rows && 0 <= j < screen.columns ::
        screen.cells[i][j] == if i < screen.row || (i == screen.row && j < screen.col)
                              then old(screen.cells)[i][j] else ' '
      ensures screen.row == old(screen.row) && screen.col == old(screen.col)
    {
      screen := EraseBelow(screen);
    }

    method ClearScreen()
      requires screen.Valid()
      modifies this
      ensures screen == EraseAll(old(screen)) && screen.Valid()
      ensures forall i, j | 0 <= i < screen.rows && 0 <= j < screen.columns :: screen.cells[i][j] == ' '
      ensures screen.row == screen.col == 0
    {
      screen := EraseAll(screen);
    }
  }
}

module DifferentialRenderer {
  import opened Wrappers
  import opened Terminal

  /** The lines leave the last row free and each fits the width. */
  predicate Fits(lines: seq<string>, rows: nat, columns: nat) {
    && |lines| < rows && 0 < columns
    && forall i | 0 <= i < |lines| :: |lines[i]| <= columns && Plain(lines[i])
  }

  /** Writing lines, each followed by CR LF. */
  function WriteLine(s: Screen, line: string): (r: Screen)
    requires s.Valid()
    ensures r.Valid() && r.rows == s.rows && r.columns == s.columns
  {
    PutAll(PutAll(s, line, |line|), "\r\n", 2)
  }

  function WriteAll(s: Screen, lines: seq<string>, n: nat): (r: Screen)
    requires s.Valid() && n <= |lines|
    ensures r.Valid() && r.rows == s.rows && r.columns == s.columns
  {
    if n == 0 then s else WriteLine(WriteAll(s, lines, n - 1), lines[n - 1])
  }

  /** Clearing the screen and writing every line: what the differential renderer must amount to. */
  function FullRedraw(s: Screen, lines: seq<string>): Screen
    requires s.Valid()
  {
    WriteAll(EraseAll(s), lines, |lines|)
  }

  function Pad(line: string, columns: nat): (r: string)
    requires |line| <= columns
    ensures |r| == columns
  {
    line + Blank(columns - |line|)
  }

  /** The screen that shows these lines and nothing else, with the cursor below them. */
  function Painted(lines: seq<string>, rows: nat, columns: nat): (r: Screen)
    requires Fits(lines, rows, columns)
    ensures r.Valid()
  {
    var cells := seq(rows, i requires 0 <= i < rows => if i < |lines| then Pad(lines[i], columns) else Blank(columns));
    Screen(rows, columns, cells, |lines|, 0)
  }

  /** Every cell of that screen: the character of the line, or a blank. */
  lemma PaintedShows(lines: seq<string>, rows: nat, columns: nat, i: nat, j: nat)
    requires Fits(lines, rows, columns) && i < rows && j < columns
    ensures var s := Painted(lines, rows, columns);
            && s.rows == rows && s.columns == columns && s.row == |lines| && s.col == 0
            && s.cells[i][j] == if i < |lines| && j < |lines[i]| then lines[i][j] else ' '
  {
  }

  lemma WriteLinePaints(lines: seq<string>, line: string, rows: nat, columns: nat)
    requires Fits(lines + [line], rows, columns) && Fits(lines, rows, columns)
    ensures WriteLine(Painted(lines, rows, columns), line) == Painted(lines + [line], rows, columns)
  {
    assert (lines + [line])[|lines|] == line;
    var s := Painted(lines, rows, columns);
    PrintsText(s, line, |line|);
    assert line[..|line|] == line;
    var printed := PutAll(s, line, |line|);
    PrintsNewLine(printed);
    var row := s.cells[|lines|];
    assert row == Blank(columns) && row[|line|..] == Blank(columns - |line|);
    assert row[..0] + line + row[|line|..] == Pad(line, columns);
    assert printed.cells == Painted(lines + [line], rows, columns).cells;
  }

  lemma FitsPrefix(lines: seq<string>, rows: nat, columns: nat, k: nat)
    requires Fits(lines, rows, columns) && k <= |lines|
    ensures Fits(lines[..k], rows, columns)
  {
  }

  /** Writing the lines from `k` on, below those before, shows them all. */
  lemma {:induction false} WriteAllPaints(lines: seq<string>, rows: nat, columns: nat, k: nat, n: nat)
    requires Fits(lines, rows, columns) && k <= |lines| && n <= |lines| - k
    ensures Fits(lines[..k], rows, columns) && Fits(lines[..k + n], rows, columns)
    ensures WriteAll(Painted(lines[..k], rows, columns), lines[k..], n) == Painted(lines[..k + n], rows, columns)
  {
    FitsPrefix(lines, rows, columns, k);
    FitsPrefix(lines, rows, columns, k + n);
    if n > 0 {
      WriteAllPaints(lines, rows, columns, k, n - 1);
      assert lines[..k + n] == lines[..k + n - 1] + [lines[k + n - 1]];
      WriteLinePaints(lines[..k + n - 1], lines[k + n - 1], rows, columns);
    }
  }

  lemma RedrawPaints(s: Screen, lines: seq<string>)
    requires s.Valid() && Fits(lines, s.rows, s.columns)
    ensures FullRedraw(s, lines) == Painted(lines, s.rows, s.columns)
  {
    assert EraseAll(s) == Painted(lines[..0], s.rows, s.columns);
    assert lines[0..] == lines && lines[..|lines|] == lines;
    WriteAllPaints(lines, s.rows, s.columns, 0, |lines|);
  }

  /** Going up to line `k` and erasing from there leaves the lines before `k`. */
  lemma ErasePaints(lines: seq<string>, rows: nat, columns: nat, k: nat)
    requires Fits(lines, rows, columns) && k <= |lines|
    ensures Fits(lines[..k], rows, columns)
    ensures EraseBelow(CursorUp(Painted(lines, rows, columns), |lines| - k)) == Painted(lines[..k], rows, columns)
  {
    var up := CursorUp(Painted(lines, rows, columns), |lines| - k);
    assert up.cells[k][..0] + Blank(columns) == Blank(columns);
    assert EraseBelow(up).cells == Painted(lines[..k], rows, columns).cells;
  }

  class TUI {
    const terminal: ConsoleTerminal
    var isRunning: bool
    var lastRender: Option<seq<string>>
    var lastWidth: nat

    /** After a render, as long as the width stays the same, the screen shows what was rendered. */
    ghost predicate Valid() reads this, terminal {
      && terminal.screen.Valid()
      && (lastRender.Some? && lastWidth == terminal.screen.columns ==>
            && Fits(lastRender.value, terminal.screen.rows, lastWidth)
            && terminal.screen == Painted(lastRender.value, terminal.screen.rows, lastWidth))
    }

    constructor (terminal: ConsoleTerminal)
      requires terminal.screen.Valid()
      ensures Valid() && this.terminal == terminal && !isRunning && lastRender == None
    {
      this.terminal := terminal;
      isRunning, lastRender, lastWidth := false, None, terminal.screen.columns;
    }

    method Start(lines: seq<string>)
      requires Valid() && Fits(lines, terminal.screen.rows, terminal.screen.columns)
      modifies this, terminal
      ensures Valid() && isRunning && terminal.screen == FullRedraw(old(terminal.screen), lines)
    {
      isRunning := true;
      RequestRender(lines);
    }

    method Stop()
      requires Valid()
      modifies this`isRunning
      ensures Valid() && !isRunning
    {
      isRunning := false;
    }

    /** Whether lines were added, dropped, changed or kept, and whether or not the width changed, the
        screen ends up as if it had been cleared and every line written anew. */
    method RequestRender(lines: seq<string>)
      requires Valid() && Fits(lines, terminal.screen.rows, terminal.screen.columns)
      modifies this`lastRender, this`lastWidth, terminal
      ensures Valid()
      ensures isRunning ==> terminal.screen == FullRedraw(old(terminal.screen), lines)
      ensures isRunning ==> lastRender == Some(lines) && lastWidth == terminal.screen.columns
      ensures !isRunning ==>
                && terminal.screen == old(terminal.screen)
                && lastRender == old(lastRender) && lastWidth == old(lastWidth)
    {
      if !isRunning { return; }
      var width := terminal.screen.columns;
      RedrawPaints(terminal.screen, lines);
      RenderDifferential(lines, width);
      lastRender := Some(lines);
      lastWidth := width;
    }

    method RenderDifferential(lines: seq<string>, width: nat)
      requires Valid() && Fits(lines, terminal.screen.rows, width) && width == terminal.screen.columns
      modifies terminal
      ensures terminal.screen == Painted(lines, old(terminal.screen.rows), width)
    {
      hide Painted, Fits, WriteAll, EraseBelow, EraseAll;
      ghost var rows := terminal.screen.rows;
      if lastRender.None? || width != lastWidth {
        RedrawPaints(terminal.screen, lines);
        terminal.ClearScreen();
        WriteLines(lines);
        return;
      }
      var previous := lastRender.value;
      var firstChanged := FindFirstChangedLine(lines, previous);
      if firstChanged == -1 {
        return;
      }
      var linesToMove := |previous| - firstChanged;
      ErasePaints(previous, rows, width, firstChanged);
      if linesToMove > 0 {
        terminal.MoveBy(-linesToMove);
      }
      terminal.ClearFromCursor();
      assert terminal.screen == Painted(lines[..firstChanged], rows, width);
      WriteAllPaints(lines, rows, width, firstChanged, |lines| - firstChanged);
      assert lines[..|lines|] == lines;
      WriteLines(lines[firstChanged..]);
    }

    /** The length of the common prefix, or -1 when nothing changed. */
    static method FindFirstChangedLine(newLines: seq<string>, oldLines: seq<string>) returns (k: int)
      ensures k == -1 <==> newLines == oldLines
      ensures k != -1 ==> 0 <= k <= |newLines| && k <= |oldLines| && newLines[..k] == oldLines[..k]
      ensures k != -1 && k < |newLines| && k < |oldLines| ==> newLines[k] != oldLines[k]
    {
      var minLength := if |newLines| < |oldLines| then |newLines| else |oldLines|;
      for i := 0 to minLength
        invariant newLines[..i] == oldLines[..i]
      {
        if newLines[i] != oldLines[i] {
          return i;
        }
      }
      if |newLines| != |oldLines| {
        return minLength;
      }
      return -1;
    }

    method WriteLines(lines: seq<string>)
      requires terminal.screen.Valid()
      modifies terminal
      ensures terminal.screen == WriteAll(old(terminal.screen), lines, |lines|)
    {
      for i := 0 to |lines|
        invariant terminal.screen.Valid() && terminal.screen == WriteAll(old(terminal.screen), lines, i)
      {
        terminal.Write(lines[i]);
        terminal.Write("\r\n");
      }
    }
  }

  /** One render, perhaps after the terminal was resized: `resized` is the screen the terminal then
      shows, whatever it did to the old contents. */
  datatype Frame = Frame(resized: Option<Screen>, lines: seq<string>)

  function SizeAfter(frames: seq<Frame>, k: nat, rows: nat, columns: nat): (nat, nat)
    requires k <= |frames|
  {
    if k == 0 then (rows, columns)
    else
      match frames[k - 1].resized
      case None => SizeAfter(frames, k - 1, rows, columns)
      case Some(s) => (s.rows, s.columns)
  }

  /** A resize changes the width, or leaves what was rendered last on the screen; the lines fit the
      screen they are rendered to. */
  predicate FrameOk(frames: seq<Frame>, k: nat, rows: nat, columns: nat)
    requires k < |frames|
  {
    var (before, after) := (SizeAfter(frames, k, rows, columns), SizeAfter(frames, k + 1, rows, columns));
    && Fits(frames[k].lines, after.0, after.1)
    && (frames[k].resized.Some? ==>
          var s := frames[k].resized.value;
          && s.Valid()
          && (s.columns != before.1
              || (k > 0 && Fits(frames[k - 1].lines, s.rows, s.columns)
                  && s == Painted(frames[k - 1].lines, s.rows, s.columns))))
  }

  /** After any sequence of renders and such resizes the screen is what the last frame alone would have
      drawn on a cleared screen. */
  method RenderSequence(tui: TUI, frames: seq<Frame>)
    requires tui.Valid() && tui.isRunning && frames != []
    requires tui.lastRender.Some? ==> tui.lastWidth == tui.terminal.screen.columns
    requires forall k | 0 <= k < |frames| :: FrameOk(frames, k, tui.terminal.screen.rows, tui.terminal.screen.columns)
    modifies tui`lastRender, tui`lastWidth, tui.terminal
    ensures tui.Valid()
    ensures var (rows, columns) := SizeAfter(frames, |frames|, old(tui.terminal.screen.rows),
                                             old(tui.terminal.screen.columns));
            var last := frames[|frames| - 1].lines;
            Fits(last, rows, columns) && tui.terminal.screen == Painted(last, rows, columns)
  {
    ghost var rows, columns := tui.terminal.screen.rows, tui.terminal.screen.columns;
    for k := 0 to |frames|
      invariant tui.Valid() && (tui.lastRender.Some? ==> tui.lastWidth == tui.terminal.screen.columns)
      invariant (tui.terminal.screen.rows, tui.terminal.screen.columns) == SizeAfter(frames, k, rows, columns)
      invariant tui.isRunning && (k > 0 ==> tui.lastRender == Some(frames[k - 1].lines))
      invariant k > 0 ==> Fits(frames[k - 1].lines, tui.terminal.screen.rows, tui.terminal.screen.columns)
      invariant k > 0 ==>
                  Painted(frames[k - 1].lines, tui.terminal.screen.rows, tui.terminal.screen.columns)
                  == tui.terminal.screen
    {
      assert FrameOk(frames, k, rows, columns);
      if frames[k].resized.Some? {
        tui.terminal.screen := frames[k].resized.value;
      }
      RedrawPaints(tui.terminal.screen, frames[k].lines);
      tui.RequestRender(frames[k].lines);
    }
  }
}
