/** The Nokia 5110 text renderer
    (nokia_lcd/components/lcd_nokia5110/src/lcd_nokia5110.c).

    The driver keeps a 6 x 84 byte framebuffer (one byte is a column of eight
    pixels of one 8-pixel row band) and a text cursor, draws 5-column glyphs
    plus a one-column spacer into it, and sends it to the PCD8544 controller
    as a stream of command and data bytes. The SPI bus is modelled as the
    trace of bytes handed to `lcd_send_byte`, each tagged with the level of
    the D/C pin; `SentByteAsWritten` shows what the transaction encoding of
    `lcd_send_byte` actually puts on the bus. The 5x7 font table is a
    parameter: its data is not part of this model. */
module Nokia5110 {
  import opened CTypes

  // Display geometry
  const LCD_WIDTH: nat := 84
  const LCD_HEIGHT: nat := 48
  const LCD_ROWS: nat := LCD_HEIGHT / 8

  // PCD8544 instruction opcodes
  const CMD_FUNCTION_SET: bv8 := 0x20
  const CMD_DISPLAY_CONTROL: bv8 := 0x08
  const CMD_SET_Y_ADDR: bv8 := 0x40
  const CMD_SET_X_ADDR: bv8 := 0x80
  const CMD_TEMP_CONTROL: bv8 := 0x04
  const CMD_BIAS_SYSTEM: bv8 := 0x10
  const CMD_SET_VOP: bv8 := 0x80

  // Font geometry: printable ASCII 32..127, five columns each
  const FONT_FIRST: bv8 := 32
  const FONT_LAST: bv8 := 127
  const FONT_CHARS: nat := 96
  const FONT_WIDTH: nat := 5
  /** Columns one character occupies: the glyph and a spacer. */
  const CELL_WIDTH: nat := FONT_WIDTH + 1

  /** One byte on the SPI bus, with the D/C pin low (command) or high (data). */
  datatype Tx = Command(b: bv8) | Data(b: bv8)

  /** The four bytes of an SPI transaction's `tx_data` field. It shares its
      storage with the `tx_buffer` pointer, so a transaction built by setting
      `tx_buffer` holds the pointer's 32-bit address there, low byte first. */
  function TxDataOfPointer(address: uint32): (d: seq<uint8>)
    ensures |d| == 4
    ensures d[0] as int + 0x100 * d[1] as int + 0x1_0000 * d[2] as int + 0x100_0000 * d[3] as int == address
  {
    var q1 := address / 0x100;
    var q2 := q1 / 0x100;
    var q3 := q2 / 0x100;
    [address % 0x100, q1 % 0x100, q2 % 0x100, q3]
  }

  /** `lcd_send_byte` as written: the transaction points `tx_buffer` at the
      byte (whose address is `address`) but also sets `SPI_TRANS_USE_TXDATA`,
      so an 8-bit transfer sends the first byte of `tx_data`, which is the
      low byte of the pointer. */
  function SentByteAsWritten(address: uint32, byte: uint8): (sent: uint8)
    ensures sent == address % 0x100
  {
    TxDataOfPointer(address)[0]
  }

  /** As written, the byte on the bus does not depend on the byte passed in:
      two calls from the same stack frame send the same byte. */
  lemma SentByteIgnoresArgument(address: uint32, byte1: uint8, byte2: uint8)
    ensures SentByteAsWritten(address, byte1) == SentByteAsWritten(address, byte2)
  {
  }

  /** With the byte at address 0x3FFB1234, the command 0x21 goes out as 0x34. */
  lemma CommandLostAsWritten()
    ensures SentByteAsWritten(0x3FFB_1234, 0x21) == 0x34 != 0x21
  {
  }

  /** `lcd_send_byte` as intended: the byte is placed in `tx_data` itself
      (or `SPI_TRANS_USE_TXDATA` is left off), so the transfer sends it. The
      trace of this model records the bytes as this function sends them. */
  function SentByte(byte: uint8): (sent: uint8)
    ensures sent == byte
  {
    [byte, 0, 0, 0][0]
  }

  predicate FontShape(font: seq<seq<bv8>>)
  {
    |font| == FONT_CHARS && forall i :: 0 <= i < FONT_CHARS ==> |font[i]| == FONT_WIDTH
  }

  predicate IsFrame(rows: seq<seq<bv8>>)
  {
    |rows| == LCD_ROWS && forall r :: 0 <= r < LCD_ROWS ==> |rows[r]| == LCD_WIDTH
  }

  /** The all-zero framebuffer. */
  function Blank(): (rows: seq<seq<bv8>>)
    ensures IsFrame(rows)
    ensures forall r, c :: 0 <= r < LCD_ROWS && 0 <= c < LCD_WIDTH ==> rows[r][c] == 0
  {
    seq(LCD_ROWS, _ => seq(LCD_WIDTH, _ => 0 as bv8))
  }

  function Min(a: int, b: int): int
  {
    if a <= b then a else b
  }

  /** The character substitution of `write_char`: anything outside the
      printable range 32..127 is drawn as a space. */
  function Printable(c: bv8): (p: bv8)
    ensures FONT_FIRST <= p <= FONT_LAST
    ensures FONT_FIRST <= c <= FONT_LAST ==> p == c
    ensures !(FONT_FIRST <= c <= FONT_LAST) ==> p == ' ' as bv8
  {
    if c < 32 || c > 127 then 32 else c
  }

  /** The index of a character's glyph in the font table. */
  function FontIndex(c: bv8): (i: nat)
    ensures i < FONT_CHARS
    ensures i == (Printable(c) - FONT_FIRST) as int
  {
    (Printable(c) - FONT_FIRST) as int
  }

  /** The six columns `write_char` draws for `c`: the glyph's five columns
      and an empty spacer, all complemented in inverted mode. */
  function CellColumns(font: seq<seq<bv8>>, inverted: bool, c: bv8): (cols: seq<bv8>)
    requires FontShape(font)
    ensures |cols| == CELL_WIDTH
    ensures forall i :: 0 <= i < FONT_WIDTH ==>
              cols[i] == if inverted then !font[FontIndex(c)][i] else font[FontIndex(c)][i]
    ensures cols[FONT_WIDTH] == if inverted then 0xFF else 0x00
  {
    var glyph := font[FontIndex(c)];
    var drawn := if inverted then seq(FONT_WIDTH, i requires 0 <= i < FONT_WIDTH => !glyph[i]) else glyph;
    drawn + [if inverted then 0xFF else 0x00]
  }

  /** The part of the driver's state text drawing touches. */
  datatype Screen = Screen(rows: seq<seq<bv8>>, x: uint8, y: uint8)

  /** `write_char` may write only when the cursor row is inside the buffer;
      at or past the right edge it writes nothing, whatever the row. */
  predicate CanDraw(s: Screen)
  {
    IsFrame(s.rows) && (s.y < LCD_ROWS || s.x >= LCD_WIDTH)
  }

  /** A line with its columns `x .. x + n - 1` replaced by the first `n`
      of `cols`. */
  function Splice(line: seq<bv8>, x: nat, cols: seq<bv8>, n: nat): (r: seq<bv8>)
    requires x + n <= |line| && n <= |cols|
    ensures |r| == |line|
  {
    line[..x] + cols[..n] + line[x + n..]
  }

  /** Column `i` of a splice is the cell's column inside the replaced
      stretch and the line's own column outside it. */
  lemma SpliceAt(line: seq<bv8>, x: nat, cols: seq<bv8>, n: nat)
    requires x + n <= |line| && n <= |cols|
    ensures forall i :: 0 <= i < |line| ==>
              Splice(line, x, cols, n)[i] == if x <= i < x + n then cols[i - x] else line[i]
  {
  }

  /** Writing the next column extends the splice by one. */
  lemma SpliceStep(line: seq<bv8>, x: nat, cols: seq<bv8>, n: nat)
    requires x + n < |line| && n < |cols|
    ensures Splice(line, x, cols, n)[x + n := cols[n]] == Splice(line, x, cols, n + 1)
  {
    SpliceAt(line, x, cols, n);
    SpliceAt(line, x, cols, n + 1);
  }

  /** A splice of nothing is the line itself. */
  lemma SpliceNone(line: seq<bv8>, x: nat, cols: seq<bv8>)
    requires x <= |line|
    ensures Splice(line, x, cols, 0) == line
  {
  }

  /** The first `k` of `cols` drawn from the cursor, clipped at the right
      edge; the cursor advances by the number of columns drawn. */
  function DrawColumns(s: Screen, cols: seq<bv8>, k: nat): (r: Screen)
    requires CanDraw(s) && k <= |cols|
    ensures CanDraw(r) && r.y == s.y
    ensures s.x >= LCD_WIDTH ==> r == s
    ensures s.x < LCD_WIDTH ==> r.x == Min(s.x + k, LCD_WIDTH)
  {
    if s.x >= LCD_WIDTH then s
    else
      var n := Min(k, LCD_WIDTH - s.x);
      Screen(s.rows[s.y := Splice(s.rows[s.y], s.x, cols, n)], s.x + n, s.y)
  }

  /** One byte written at the cursor, which then moves right. */
  function PutByte(s: Screen, v: bv8): (r: Screen)
    requires IsFrame(s.rows) && s.y < LCD_ROWS && s.x < LCD_WIDTH
    ensures IsFrame(r.rows) && r.x == s.x + 1 && r.y == s.y
  {
    Screen(s.rows[s.y := s.rows[s.y][s.x := v]], s.x + 1, s.y)
  }

  /** Drawing one more column is one more `PutByte` while the cursor is
      left of the right edge, and nothing once it has reached it. */
  lemma DrawColumnsStep(s: Screen, cols: seq<bv8>, k: nat)
    requires CanDraw(s) && k < |cols|
    ensures var d := DrawColumns(s, cols, k);
      if d.x < LCD_WIDTH then DrawColumns(s, cols, k + 1) == PutByte(d, cols[k])
      else DrawColumns(s, cols, k + 1) == d
  {
    if s.x < LCD_WIDTH && s.x + k < LCD_WIDTH {
      var line := Splice(s.rows[s.y], s.x, cols, k);
      SpliceStep(s.rows[s.y], s.x, cols, k);
      assert s.rows[s.y := line][s.y := line[s.x + k := cols[k]]] == s.rows[s.y := line[s.x + k := cols[k]]];
    }
  }

  /** Drawing no column changes nothing. */
  lemma DrawNothing(s: Screen, cols: seq<bv8>)
    requires CanDraw(s)
    ensures DrawColumns(s, cols, 0) == s
  {
    if s.x < LCD_WIDTH {
      SpliceNone(s.rows[s.y], s.x, cols);
      assert s.rows[s.y := s.rows[s.y]] == s.rows;
    }
  }

  /** `write_char` on a screen: the six columns of the character's cell. */
  function PutChar(s: Screen, font: seq<seq<bv8>>, inverted: bool, c: bv8): (r: Screen)
    requires FontShape(font) && CanDraw(s)
    ensures CanDraw(r) && r.y == s.y
    ensures s.x >= LCD_WIDTH ==> r == s
    ensures s.x < LCD_WIDTH ==> r.x == Min(s.x + CELL_WIDTH, LCD_WIDTH) && r.x - s.x == Min(CELL_WIDTH, LCD_WIDTH - s.x)
  {
    DrawColumns(s, CellColumns(font, inverted, c), CELL_WIDTH)
  }

  /** What `write_char` draws: the cell's columns from the cursor to the
      new cursor on the cursor's row, and nothing anywhere else. */
  lemma PutCharDraws(s: Screen, font: seq<seq<bv8>>, inverted: bool, c: bv8, row: nat, col: nat)
    requires FontShape(font) && CanDraw(s) && row < LCD_ROWS && col < LCD_WIDTH
    ensures var r := PutChar(s, font, inverted, c);
      r.rows[row][col] ==
        if row == s.y && s.x <= col < r.x then CellColumns(font, inverted, c)[col - s.x]
        else s.rows[row][col]
  {
    if s.x < LCD_WIDTH {
      SpliceAt(s.rows[s.y], s.x, CellColumns(font, inverted, c), Min(CELL_WIDTH, LCD_WIDTH - s.x));
    }
  }

  /** The characters of a C string: everything before the first NUL. */
  function UntilNul(str: seq<bv8>): (p: seq<bv8>)
    ensures |p| <= |str| && p == str[..|p|]
    ensures 0 !in p
    ensures |p| < |str| ==> str[|p|] == 0
  {
    if str == [] || str[0] == 0 then [] else [str[0]] + UntilNul(str[1..])
  }

  /** `write_string`: `write_char` for each character up to the NUL. */
  function PutString(s: Screen, font: seq<seq<bv8>>, inverted: bool, str: seq<bv8>): (r: Screen)
    requires FontShape(font) && CanDraw(s)
    ensures CanDraw(r) && r.y == s.y
    decreases |str|
  {
    if str == [] || str[0] == 0 then s
    else PutString(PutChar(s, font, inverted, str[0]), font, inverted, str[1..])
  }

  /** After `write_string` the cursor has moved six columns per character,
      stopping at the right edge, and no other row than the cursor's has
      changed. */
  lemma {:induction false} PutStringCursor(s: Screen, font: seq<seq<bv8>>, inverted: bool, str: seq<bv8>)
    requires FontShape(font) && CanDraw(s) && s.x <= LCD_WIDTH
    ensures var r := PutString(s, font, inverted, str);
      r.x == Min(s.x + CELL_WIDTH * |UntilNul(str)|, LCD_WIDTH) &&
      forall row :: 0 <= row < LCD_ROWS && row != s.y ==> r.rows[row] == s.rows[row]
    decreases |str|
  {
    if str == [] || str[0] == 0 {
    } else {
      var s' := PutChar(s, font, inverted, str[0]);
      PutStringCursor(s', font, inverted, str[1..]);
      assert UntilNul(str) == [str[0]] + UntilNul(str[1..]);
      forall row | 0 <= row < LCD_ROWS && row != s.y
        ensures s'.rows[row] == s.rows[row]
      {
        assert forall col :: 0 <= col < LCD_WIDTH ==> s'.rows[row][col] == s.rows[row][col];
      }
    }
  }

  /** With the cursor at or past the right edge, which `set_cursor` allows
      for any column up to 255, `write_string` changes nothing. */
  lemma {:induction false} PutStringPastEdge(s: Screen, font: seq<seq<bv8>>, inverted: bool, str: seq<bv8>)
    requires FontShape(font) && CanDraw(s) && s.x >= LCD_WIDTH
    ensures PutString(s, font, inverted, str) == s
    decreases |str|
  {
    if str != [] && str[0] != 0 {
      PutStringPastEdge(PutChar(s, font, inverted, str[0]), font, inverted, str[1..]);
    }
  }

  /** The data bytes of a stretch of framebuffer, in order. */
  function DataBytes(bytes: seq<bv8>): (t: seq<Tx>)
    ensures |t| == |bytes|
    ensures forall i :: 0 <= i < |bytes| ==> t[i] == Data(bytes[i])
  {
    if bytes == [] then [] else [Data(bytes[0])] + DataBytes(bytes[1..])
  }

  lemma DataBytesSnoc(line: seq<bv8>, n: nat)
    requires n < |line|
    ensures DataBytes(line[..n + 1]) == DataBytes(line[..n]) + [Data(line[n])]
  {
  }

  /** The Y-address command of each row band. */
  const Y_ADDRESS: seq<bv8> := [0x40, 0x41, 0x42, 0x43, 0x44, 0x45]

  /** The Y-address command is the opcode with the row number in its low bits. */
  lemma YAddressIsOr(row: nat)
    requires row < LCD_ROWS
    ensures |Y_ADDRESS| == LCD_ROWS
    ensures Y_ADDRESS[row] == CMD_SET_Y_ADDR | row as bv8
  {
  }

  /** What `update` sends for one row: set the Y address to the row, the X
      address to 0, then the row's bytes as data. */
  function RowTrace(line: seq<bv8>, row: nat): (t: seq<Tx>)
    requires row < LCD_ROWS
    ensures |t| == |line| + 2
    ensures t[0] == Command(CMD_SET_Y_ADDR | row as bv8) && t[1] == Command(CMD_SET_X_ADDR)
    ensures t[2..] == DataBytes(line)
  {
    YAddressIsOr(row);
    [Command(Y_ADDRESS[row]), Command(CMD_SET_X_ADDR | 0)] + DataBytes(line)
  }

  /** What `update` sends for the first `n` rows. */
  function UpdateTrace(rows: seq<seq<bv8>>, n: nat): (t: seq<Tx>)
    requires IsFrame(rows) && n <= LCD_ROWS
    ensures |t| == (LCD_WIDTH + 2) * n
  {
    if n == 0 then [] else UpdateTrace(rows, n - 1) + RowTrace(rows[n - 1], n - 1)
  }

  lemma RowTraceAfter(start: seq<Tx>, line: seq<bv8>, row: nat)
    requires row < LCD_ROWS
    ensures start + [Command(CMD_SET_Y_ADDR | row as bv8), Command(CMD_SET_X_ADDR | 0)] + DataBytes(line)
            == start + RowTrace(line, row)
  {
  }

  lemma UpdateTraceNext(start: seq<Tx>, rows: seq<seq<bv8>>, n: nat)
    requires IsFrame(rows) && n < LCD_ROWS
    ensures start + UpdateTrace(rows, n) + RowTrace(rows[n], n) == start + UpdateTrace(rows, n + 1)
  {
  }

  /** The `k`-th transmission of row `r` in `update`. */
  function RowTx(rows: seq<seq<bv8>>, r: nat, k: nat): Tx
    requires IsFrame(rows) && r < LCD_ROWS && k < LCD_WIDTH + 2
  {
    if k == 0 then Command(Y_ADDRESS[r])
    else if k == 1 then Command(CMD_SET_X_ADDR)
    else Data(rows[r][k - 2])
  }

  /** Transmission `86 * r + k` of `update` is the `k`-th of row `r`: the
      Y-address command for the row, the X-address command for column 0,
      then the row's 84 bytes as data. */
  lemma {:induction false} UpdateTraceAt(rows: seq<seq<bv8>>, n: nat, r: nat, k: nat)
    requires IsFrame(rows) && r < n <= LCD_ROWS && k < LCD_WIDTH + 2
    ensures (LCD_WIDTH + 2) * r + k < |UpdateTrace(rows, n)|
    ensures UpdateTrace(rows, n)[(LCD_WIDTH + 2) * r + k] == RowTx(rows, r, k)
  {
    var prefix := UpdateTrace(rows, n - 1);
    assert UpdateTrace(rows, n) == prefix + RowTrace(rows[n - 1], n - 1);
    if r < n - 1 {
      UpdateTraceAt(rows, n - 1, r, k);
    } else {
      assert (LCD_WIDTH + 2) * r + k == |prefix| + k;
    }
  }

  /** A full `update` is 516 transmissions. */
  lemma UpdateTraceFull(rows: seq<seq<bv8>>)
    requires IsFrame(rows)
    ensures |UpdateTrace(rows, LCD_ROWS)| == 516
  {
  }

  /** The data bytes of a trace, in order. */
  function Payload(t: seq<Tx>): (p: seq<bv8>)
    ensures |p| <= |t|
  {
    if t == [] then [] else (if t[0].Data? then [t[0].b] else []) + Payload(t[1..])
  }

  lemma {:induction false} PayloadAppend(a: seq<Tx>, b: seq<Tx>)
    ensures Payload(a + b) == Payload(a) + Payload(b)
    decreases |a|
  {
    if a == [] {
      assert a + b == b;
    } else {
      var head := if a[0].Data? then [a[0].b] else [];
      assert (a + b)[0] == a[0];
      assert (a + b)[1..] == a[1..] + b;
      PayloadAppend(a[1..], b);
      calc {
        Payload(a + b);
        head + Payload(a[1..] + b);
        head + (Payload(a[1..]) + Payload(b));
        Payload(a) + Payload(b);
      }
    }
  }

  lemma {:induction false} PayloadOfData(bytes: seq<bv8>)
    ensures Payload(DataBytes(bytes)) == bytes
    decreases |bytes|
  {
    if bytes != [] {
      assert DataBytes(bytes)[1..] == DataBytes(bytes[1..]);
      PayloadOfData(bytes[1..]);
    }
  }

  /** The rows of a framebuffer laid end to end (row-major order). */
  function Flatten(rows: seq<seq<bv8>>): seq<bv8>
  {
    if rows == [] then [] else Flatten(rows[..|rows| - 1]) + rows[|rows| - 1]
  }

  /** A row's address commands carry no data: its payload is the row. */
  lemma PayloadOfRow(line: seq<bv8>, row: nat)
    requires row < LCD_ROWS
    ensures Payload(RowTrace(line, row)) == line
  {
    var cmds := [Command(Y_ADDRESS[row]), Command(CMD_SET_X_ADDR | 0)];
    assert cmds[1..][1..] == [];
    assert Payload(cmds) == [];
    PayloadAppend(cmds, DataBytes(line));
    PayloadOfData(line);
  }

  /** The data bytes `update` sends are the framebuffer in row-major order. */
  lemma {:induction false} UpdatePayloadIsFramebuffer(rows: seq<seq<bv8>>, n: nat)
    requires IsFrame(rows) && n <= LCD_ROWS
    ensures Payload(UpdateTrace(rows, n)) == Flatten(rows[..n])
  {
    if n == 0 {
      assert rows[..n] == [];
    } else {
      UpdatePayloadIsFramebuffer(rows, n - 1);
      PayloadAppend(UpdateTrace(rows, n - 1), RowTrace(rows[n - 1], n - 1));
      PayloadOfRow(rows[n - 1], n - 1);
      assert rows[..n][..n - 1] == rows[..n - 1];
      assert Flatten(rows[..n]) == Flatten(rows[..n - 1]) + rows[n - 1];
    }
  }

  /** What `set_contrast` sends: extended instruction set, VOP, basic set. */
  function ContrastCommands(contrast: uint8): (t: seq<Tx>)
    ensures |t| == 3 && forall i :: 0 <= i < |t| ==> t[i].Command?
    ensures t[0].b == 0x21 && t[1].b == 0x80 | contrast as bv8 && t[2].b == 0x20
  {
    [Command(CMD_FUNCTION_SET | 0x01), Command(CMD_SET_VOP | contrast as bv8), Command(CMD_FUNCTION_SET)]
  }

  /** What `lcd_nokia5110_init` sends once the SPI device is attached. */
  function InitCommands(contrast: uint8): (t: seq<Tx>)
    ensures |t| == 6 && forall i :: 0 <= i < |t| ==> t[i].Command?
    ensures t[0].b == 0x21 && t[1].b == 0x80 | contrast as bv8 && t[2].b == 0x06
    ensures t[3].b == 0x13 && t[4].b == 0x20 && t[5].b == 0x0C
    ensures t[..2] == ContrastCommands(contrast)[..2] && t[4] == ContrastCommands(contrast)[2]
  {
    [Command(CMD_FUNCTION_SET | 0x01), Command(CMD_SET_VOP | contrast as bv8),
     Command(CMD_TEMP_CONTROL | 0x02), Command(CMD_BIAS_SYSTEM | 0x03),
     Command(CMD_FUNCTION_SET), Command(CMD_DISPLAY_CONTROL | 0x04)]
  }

  /** The driver's private state (`lcd_nokia5110_priv_t`), without the SPI
      and GPIO handles, plus the bytes it has sent. */
  class Lcd {
    const font: seq<seq<bv8>>
    const framebuffer: array2<bv8>
    var xPos: uint8
    var yPos: uint8
    var contrast: uint8
    var inverted: bool
    /** Every byte handed to `lcd_send_byte` so far, oldest first. */
    var spi: seq<Tx>
    /** The framebuffer's contents as a value. */
    ghost var rows: seq<seq<bv8>>

    ghost predicate Valid()
      reads this`rows, framebuffer
    {
      && FontShape(font)
      && framebuffer.Length0 == LCD_ROWS && framebuffer.Length1 == LCD_WIDTH
      && IsFrame(rows)
      && forall r, c :: 0 <= r < LCD_ROWS && 0 <= c < LCD_WIDTH ==> framebuffer[r, c] == rows[r][c]
    }

    ghost function View(): Screen
      reads this`rows, this`xPos, this`yPos
    {
      Screen(rows, xPos, yPos)
    }

    /** The successful path of `lcd_nokia5110_init`: zeroed state, the
        configured contrast, the controller set-up commands, then `clear`. */
    constructor Init(font: seq<seq<bv8>>, contrast: uint8)
      requires FontShape(font)
      ensures Valid() && fresh(framebuffer)
      ensures View() == Screen(Blank(), 0, 0)
      ensures this.contrast == contrast && !inverted
      ensures spi == InitCommands(contrast)
    {
      this.font := font;
      framebuffer := new bv8[LCD_ROWS, LCD_WIDTH]((r, c) => 0);
      xPos, yPos := 0, 0;
      this.contrast := contrast;
      inverted := false;
      spi := InitCommands(contrast);
      rows := Blank();
      new;
      Clear();
    }

    /** `lcd_nokia5110_clear`. */
    method Clear()
      requires Valid()
      modifies this`xPos, this`yPos, this`rows, framebuffer
      ensures Valid()
      ensures View() == Screen(Blank(), 0, 0)
    {
      forall r, c | 0 <= r < LCD_ROWS && 0 <= c < LCD_WIDTH {
        framebuffer[r, c] := 0;
      }
      rows := Blank();
      xPos, yPos := 0, 0;
    }

    /** `lcd_nokia5110_set_cursor`: no bounds check. */
    method SetCursor(x: uint8, y: uint8)
      modifies this`xPos, this`yPos
      ensures xPos == x && yPos == y
    {
      xPos, yPos := x, y;
    }

    /** One column of `write_char`: the byte at the cursor, then the
        cursor moves right. */
    method PutColumn(v: bv8)
      requires Valid() && yPos < LCD_ROWS && xPos < LCD_WIDTH
      modifies this`xPos, this`rows, framebuffer
      ensures Valid()
      ensures View() == PutByte(old(View()), v)
    {
      framebuffer[yPos, xPos] := v;
      rows := rows[yPos := rows[yPos][xPos := v]];
      xPos := xPos + 1;
    }

    /** The drawing part of `write_char`: each of the five glyph columns,
        complemented in inverted mode, then the spacer column, each drawn
        only while the cursor is left of the right edge. `cols` is the cell
        being drawn. */
    method DrawCell(glyph: seq<bv8>, ghost cols: seq<bv8>)
      requires Valid() && CanDraw(View())
      requires |glyph| == FONT_WIDTH && |cols| == CELL_WIDTH
      requires forall i :: 0 <= i < FONT_WIDTH ==> cols[i] == if inverted then !glyph[i] else glyph[i]
      requires cols[FONT_WIDTH] == if inverted then 0xFF else 0x00
      modifies this`xPos, this`rows, framebuffer
      ensures Valid()
      ensures View() == DrawColumns(old(View()), cols, CELL_WIDTH)
    {
      ghost var start := View();
      DrawNothing(start, cols);
      var i := 0;
      while i < FONT_WIDTH
        invariant 0 <= i <= FONT_WIDTH
        invariant Valid() && View() == DrawColumns(start, cols, i)
      {
        DrawColumnsStep(start, cols, i);
        if xPos < LCD_WIDTH {
          PutColumn(if inverted then !glyph[i] else glyph[i]);
        }
        i := i + 1;
      }
      DrawColumnsStep(start, cols, FONT_WIDTH);
      if xPos < LCD_WIDTH {
        PutColumn(if inverted then 0xFF else 0x00);
      }
    }

    /** `lcd_nokia5110_write_char`. */
    method WriteChar(c: bv8)
      requires Valid() && CanDraw(View())
      modifies this`xPos, this`rows, framebuffer
      ensures Valid()
      ensures View() == PutChar(old(View()), font, inverted, c)
    {
      var ch := Printable(c);
      var index := (ch - FONT_FIRST) as int;
      assert index == FontIndex(c);
      DrawCell(font[index], CellColumns(font, inverted, c));
    }

    /** `lcd_nokia5110_write_string`: the string's bytes are drawn up to the
        first NUL (or the end of the sequence). */
    method WriteString(str: seq<bv8>)
      requires Valid() && CanDraw(View())
      modifies this`xPos, this`rows, framebuffer
      ensures Valid()
      ensures View() == PutString(old(View()), font, inverted, str)
    {
      var i := 0;
      while i < |str| && str[i] != 0
        invariant 0 <= i <= |str|
        invariant Valid() && CanDraw(View())
        invariant PutString(old(View()), font, inverted, str) == PutString(View(), font, inverted, str[i..])
      {
        assert str[i..][1..] == str[i + 1..];
        WriteChar(str[i]);
        i := i + 1;
      }
    }

    /** The inner loop of `lcd_nokia5110_update`: the row's 84 bytes,
        left to right, as data. */
    method SendLine(row: nat)
      requires Valid() && row < LCD_ROWS
      modifies this`spi
      ensures spi == old(spi) + DataBytes(rows[row])
    {
      ghost var line := rows[row];
      var col := 0;
      while col < LCD_WIDTH
        invariant 0 <= col <= LCD_WIDTH
        invariant spi == old(spi) + DataBytes(line[..col])
      {
        DataBytesSnoc(line, col);
        assert framebuffer[row, col] == line[col];
        spi := spi + [Data(framebuffer[row, col])];
        col := col + 1;
      }
      assert line[..LCD_WIDTH] == line;
    }

    /** One row of `lcd_nokia5110_update`: the address commands, then the
        row's bytes. */
    method SendRow(row: nat)
      requires Valid() && row < LCD_ROWS
      modifies this`spi
      ensures spi == old(spi) + RowTrace(rows[row], row)
    {
      var address := CMD_SET_Y_ADDR | row as bv8;
      YAddressIsOr(row);
      spi := spi + [Command(address), Command(CMD_SET_X_ADDR | 0)];
      SendLine(row);
      RowTraceAfter(old(spi), rows[row], row);
    }

    /** `lcd_nokia5110_update`: the framebuffer, row by row, with the
        address commands before each row. */
    method Update()
      requires Valid()
      modifies this`spi
      ensures spi == old(spi) + UpdateTrace(rows, LCD_ROWS)
    {
      var row := 0;
      while row < LCD_ROWS
        invariant 0 <= row <= LCD_ROWS
        invariant spi == old(spi) + UpdateTrace(rows, row)
      {
        SendRow(row);
        UpdateTraceNext(old(spi), rows, row);
        row := row + 1;
      }
    }

    /** `lcd_nokia5110_set_contrast`. */
    method SetContrast(c: uint8)
      modifies this`contrast, this`spi
      ensures contrast == c
      ensures spi == old(spi) + ContrastCommands(c)
    {
      contrast := c;
      spi := spi + [Command(CMD_FUNCTION_SET | 0x01)];
      spi := spi + [Command(CMD_SET_VOP | c as bv8)];
      spi := spi + [Command(CMD_FUNCTION_SET)];
    }
  }
}
