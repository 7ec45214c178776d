/**
 * The direction of one motor: the enum the driver records, the text tokens
 * its mode attribute reads and writes, and the levels of the two direction
 * lines each direction drives.
 */
module MotorMode {
  import opened Kernel

  /** enum motor_mode, in declaration order. */
  datatype Mode = CW | CCW | STOP

  /** The integer C gives each enumerator: the order of declaration. */
  function Code(m: Mode): (c: nat)
    ensures c <= 2
  {
    match m
    case CW => 0
    case CCW => 1
    case STOP => 2
  }

  /** The enumerator a stored integer stands for, if any. */
  function FromCode(c: int): (r: Option<Mode>)
    ensures r.Some? <==> 0 <= c <= 2
    ensures r.Some? ==> Code(r.value) == c
    ensures forall m :: Code(m) == c ==> r == Some(m)
  {
    if c == 0 then Some(CW)
    else if c == 1 then Some(CCW)
    else if c == 2 then Some(STOP)
    else None
  }

  /** The token that names a mode on the attribute interface. */
  function Token(m: Mode): string
  {
    match m
    case CW => "cw"
    case CCW => "ccw"
    case STOP => "stop"
  }

  /** `strncmp(s, prefix, strlen(prefix)) == 0` for a prefix without NUL characters. */
  predicate StartsWith(s: string, prefix: string)
  {
    |prefix| <= |s| && s[..|prefix|] == prefix
  }

  /**
   * The classification a mode store applies to the written buffer: "stop",
   * then "cw", then "ccw", each matched as a prefix, so trailing characters
   * are accepted.
   */
  function ParseMode(buf: string): (r: Option<Mode>)
    ensures r.Some? ==> StartsWith(buf, Token(r.value))
    ensures r.None? <==> forall m :: !StartsWith(buf, Token(m))
  {
    if StartsWith(buf, "stop") then Some(STOP)
    else if StartsWith(buf, "cw") then Some(CW)
    else if StartsWith(buf, "ccw") then Some(CCW)
    else None
  }

  /** No buffer starts with two different tokens. */
  lemma TokensExclusive(buf: string, m: Mode, n: Mode)
    requires StartsWith(buf, Token(m)) && StartsWith(buf, Token(n))
    ensures m == n
  {
    assert buf[0] == Token(m)[0] && buf[0] == Token(n)[0];
    assert Token(m)[0] == 'c' ==> buf[1] == Token(m)[1] && buf[1] == Token(n)[1];
  }

  /**
   * Because no token is a prefix of another, the order of the checks does not
   * matter: a buffer selects a mode exactly when it starts with that mode's token.
   */
  lemma ParseModeIffPrefix(buf: string, m: Mode)
    ensures ParseMode(buf) == Some(m) <==> StartsWith(buf, Token(m))
  {
    if StartsWith(buf, Token(m)) {
      var r := ParseMode(buf);
      TokensExclusive(buf, m, r.value);
    }
  }

  /** The show callback's switch on the stored mode: the token and a newline, or -EINVAL. */
  function Show(code: int): (r: Result<string>)
    ensures r.Ok? <==> FromCode(code).Some?
    ensures r.Ok? ==> r.value == Token(FromCode(code).value) + "\n"
    ensures r.Err? ==> r.errno == -EINVAL
  {
    if code == 0 then Ok("cw\n")
    else if code == 1 then Ok("ccw\n")
    else if code == 2 then Ok("stop\n")
    else Err(-EINVAL)
  }

  /** What the mode attribute reads back is accepted by a store and selects the same mode. */
  lemma ShowParseRoundTrip(m: Mode)
    ensures Show(Code(m)).Ok?
    ensures ParseMode(Show(Code(m)).value) == Some(m)
  {
    var s := Show(Code(m)).value;
    assert s[..|Token(m)|] == Token(m);
    ParseModeIffPrefix(s, m);
  }

  /** The (in1, in2) levels a mode store writes for each mode. */
  function Pins(m: Mode): (p: (Bit, Bit))
    ensures p != (1, 1)
    ensures p == (0, 0) <==> m == STOP
  {
    match m
    case STOP => (0, 0)
    case CW => (0, 1)
    case CCW => (1, 0)
  }

  /** The mode a pair of direction levels shows, if any; (1, 1) shows none. */
  function ModeOfPins(in1: Bit, in2: Bit): (r: Option<Mode>)
    ensures forall m :: Pins(m) == (in1, in2) <==> r == Some(m)
    ensures r.None? <==> in1 == 1 && in2 == 1
  {
    if in1 == 0 && in2 == 0 then Some(STOP)
    else if in1 == 0 then Some(CW)
    else if in2 == 0 then Some(CCW)
    else None
  }
}
