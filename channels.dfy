/**
 * One LabJack port: its name, resolved to a Modbus register address through a fixed
 * offset table, and the logical target written to it (`LabjackChannel` in reflector.py).
 */
module Channels {
  import opened Wrappers
  import opened Ljm

  // ---------------------------------------------------------------------------
  // Channel names
  // ---------------------------------------------------------------------------

  /** The keys of the Modbus offset table. */
  datatype Category = AIN | DAC | DIO | FIO | EIO | CIO | MIO

  /** The three-letter key of a category. */
  function Code(c: Category): string
  {
    match c
    case AIN => "AIN"
    case DAC => "DAC"
    case DIO => "DIO"
    case FIO => "FIO"
    case EIO => "EIO"
    case CIO => "CIO"
    case MIO => "MIO"
  }

  /** The offset table: the value each key is mapped to. */
  function Offset(c: Category): nat
  {
    match c
    case AIN => 0
    case DAC => 1000
    case DIO => 2000
    case FIO => 2000
    case EIO => 2008
    case CIO => 2016
    case MIO => 2020
  }

  /** Looks `prefix` up among the table's keys. */
  function CategoryOf(prefix: string): (r: Option<Category>)
    ensures r.Some? ==> Code(r.value) == prefix
    ensures r.None? ==> forall c :: Code(c) != prefix
  {
    if prefix == "AIN" then Some(AIN)
    else if prefix == "DAC" then Some(DAC)
    else if prefix == "DIO" then Some(DIO)
    else if prefix == "FIO" then Some(FIO)
    else if prefix == "EIO" then Some(EIO)
    else if prefix == "CIO" then Some(CIO)
    else if prefix == "MIO" then Some(MIO)
    else None
  }

  predicate IsDigit(ch: char)
  {
    '0' <= ch <= '9'
  }

  predicate AllDigits(s: string)
  {
    forall i :: 0 <= i < |s| ==> IsDigit(s[i])
  }

  /** Python's `s.isdigit()`, restricted to ASCII digits: non-empty and digits only. */
  predicate IsDigits(s: string)
  {
    |s| > 0 && AllDigits(s)
  }

  /** Python's `int(s)` on a string of decimal digits. */
  function DigitsValue(s: string): nat
    requires AllDigits(s)
    decreases |s|
  {
    if |s| == 0 then 0
    else 10 * DigitsValue(s[..|s| - 1]) + (s[|s| - 1] as int - '0' as int)
  }

  /** The decimal digit of `d`. */
  function Digit(d: nat): (ch: char)
    requires d < 10
    ensures IsDigit(ch) && ch as int - '0' as int == d
  {
    ('0' as int + d) as char
  }

  /** Python's `str(n)` for a natural number: the shortest decimal spelling of `n`. */
  function Decimal(n: nat): (s: string)
    ensures IsDigits(s)
  {
    if n < 10 then [Digit(n)] else Decimal(n / 10) + [Digit(n % 10)]
  }

  /** `int(str(n)) == n`. */
  lemma {:induction false} DecimalValue(n: nat)
    ensures DigitsValue(Decimal(n)) == n
  {
    if n >= 10 {
      DecimalValue(n / 10);
      var s := Decimal(n);
      assert s[..|s| - 1] == Decimal(n / 10);
    }
  }

  /** `name[:3]`: the first three characters, or all of a shorter name. */
  function Head(name: string): string
  {
    if |name| >= 3 then name[..3] else name
  }

  /** `name[3:]`: everything after the first three characters. */
  function Tail(name: string): string
  {
    if |name| >= 3 then name[3..] else []
  }

  /**
   * The check of `LabjackChannel.__init__`: the first three characters are a key of the
   * offset table and the rest is a non-empty string of digits. A name failing it raises TypeError.
   */
  predicate ValidChannel(name: string)
  {
    CategoryOf(Head(name)).Some? && IsDigits(Tail(name))
  }

  /** The category of a valid name. */
  function CategoryOfChannel(name: string): Category
    requires ValidChannel(name)
  {
    CategoryOf(Head(name)).value
  }

  /** The index of a valid name: `int(name[3:])`. */
  function Index(name: string): nat
    requires ValidChannel(name)
  {
    DigitsValue(Tail(name))
  }

  /** `name` is spelled as the key of `c` followed by the digits `d`. */
  predicate Spells(name: string, c: Category, d: string)
  {
    IsDigits(d) && name == Code(c) + d
  }

  /** A key followed by digits is a valid name, of that category, whose index is read from those digits. */
  lemma SpelledChannel(c: Category, d: string)
    requires IsDigits(d)
    ensures ValidChannel(Code(c) + d)
    ensures CategoryOfChannel(Code(c) + d) == c && Tail(Code(c) + d) == d
  {
    var name := Code(c) + d;
    assert Head(name) == Code(c);
    assert Tail(name) == d;
  }

  /** Channel validation accepts exactly the names spelled as a table key followed by one or more digits. */
  lemma ValidChannelIff(name: string)
    ensures ValidChannel(name) <==> exists c, d :: Spells(name, c, d)
  {
    if ValidChannel(name) {
      var c, d := CategoryOfChannel(name), Tail(name);
      assert name == Head(name) + Tail(name);
      assert Spells(name, c, d);
    }
    if exists c, d :: Spells(name, c, d) {
      var c, d :| Spells(name, c, d);
      SpelledChannel(c, d);
    }
  }

  /** Names the channel validation rejects: a bare key, a letter among the digits, an unknown key, a short name. */
  lemma RejectedChannels()
    ensures !ValidChannel("AIN") && !ValidChannel("AINO1") && !ValidChannel("XYZ5") && !ValidChannel("DI")
  {
    assert Tail("AINO1")[0] == 'O';
    assert Head("XYZ5") == "XYZ";
  }

  // ---------------------------------------------------------------------------
  // Addresses
  // ---------------------------------------------------------------------------

  /**
   * `LabjackChannel.address`, as written: AIN and DAC indices are doubled (32-bit registers
   * span two addresses) and no offset is added to them; every other category adds its offset.
   */
  function Address(name: string): nat
    requires ValidChannel(name)
  {
    var c, n := CategoryOfChannel(name), Index(name);
    if c == AIN || c == DAC then 2 * n else n + Offset(c)
  }

  /** The address of the channel `c` number `n`, spelled the usual way. */
  lemma {:induction false} AddressOf(c: Category, n: nat)
    ensures ValidChannel(Code(c) + Decimal(n))
    ensures Address(Code(c) + Decimal(n)) == if c == AIN || c == DAC then 2 * n else n + Offset(c)
  {
    SpelledChannel(c, Decimal(n));
    DecimalValue(n);
  }

  /** Worked examples: DIO1 is 2001, AIN2 is 4, CIO0 is 2016. */
  lemma AddressExamples()
    ensures ValidChannel("DIO1") && Address("DIO1") == 2001
    ensures ValidChannel("AIN2") && Address("AIN2") == 4
    ensures ValidChannel("CIO0") && Address("CIO0") == 2016
  {
    AddressOf(DIO, 1);
    assert Code(DIO) + Decimal(1) == "DIO1";
    AddressOf(AIN, 2);
    assert Code(AIN) + Decimal(2) == "AIN2";
    AddressOf(CIO, 0);
    assert Code(CIO) + Decimal(0) == "CIO0";
  }

  /** As written, the analog output DAC1 resolves to the address of the analog input AIN1. */
  lemma DacSharesAinAddress()
    ensures ValidChannel("DAC1") && ValidChannel("AIN1")
    ensures Address("DAC1") == Address("AIN1") == 2
  {
    AddressOf(DAC, 1);
    assert Code(DAC) + Decimal(1) == "DAC1";
    AddressOf(AIN, 1);
    assert Code(AIN) + Decimal(1) == "AIN1";
  }

  /** The address with the DAC offset applied, as the offset table intends: DACn is 1000 + 2n. */
  function ModbusAddress(name: string): nat
    requires ValidChannel(name)
  {
    var c, n := CategoryOfChannel(name), Index(name);
    if c == AIN then 2 * n
    else if c == DAC then Offset(DAC) + 2 * n
    else n + Offset(c)
  }

  /** The corrected address differs from the written one for DAC channels only. */
  lemma ModbusAddressAgrees(name: string)
    requires ValidChannel(name)
    ensures ModbusAddress(name) == Address(name) <==> CategoryOfChannel(name) != DAC
  {
  }

  /** With the offset applied, no analog input below 500 shares either register of any analog output. */
  lemma ModbusAddressSeparatesAnalog(input: string, output: string)
    requires ValidChannel(input) && CategoryOfChannel(input) == AIN && Index(input) < 500
    requires ValidChannel(output) && CategoryOfChannel(output) == DAC
    ensures ModbusAddress(input) + 1 < ModbusAddress(output)
  {
  }

  /** DAC1 resolves to 1002 once the offset is applied. */
  lemma ModbusAddressDac1()
    ensures ValidChannel("DAC1") && ModbusAddress("DAC1") == 1002
  {
    SpelledChannel(DAC, "1");
  }

  // ---------------------------------------------------------------------------
  // Targets
  // ---------------------------------------------------------------------------

  /** `ReflectorState` (lsst.ts.xml.enums.Reflector): an IntEnum; the members the source uses. */
  datatype ReflectorState = UNKNOWN | ON | OFF | ERROR

  /** A Python value passed where a `ReflectorState` or a `bool` is expected. */
  datatype Target = St(state: ReflectorState) | B(b: bool) | Other(text: string)

  /** The integer values of the enum's members, which are defined outside this repository. */
  type Valuation = ReflectorState -> int

  /** Distinct members have distinct values, as in an IntEnum without aliases. */
  ghost predicate Distinct(v: Valuation)
  {
    forall a, b :: v(a) == v(b) ==> a == b
  }

  function BoolInt(b: bool): int
  {
    if b then 1 else 0
  }

  /** Python's `x == y`: IntEnum members compare by value, also with bools (`True == 1`). */
  predicate PyEq(x: Target, y: Target, v: Valuation)
  {
    match (x, y)
    case (St(a), St(b)) => v(a) == v(b)
    case (St(a), B(b)) => v(a) == BoolInt(b)
    case (B(a), St(b)) => BoolInt(a) == v(b)
    case (B(a), B(b)) => a == b
    case (Other(s), Other(t)) => s == t
    case _ => false
  }

  /** `LabjackChannel.check_valid`: an ON or OFF member, or any bool. */
  predicate CheckValid(t: Target, v: Valuation)
  {
    match t
    case St(_) => PyEq(t, St(ON), v) || PyEq(t, St(OFF), v)
    case B(_) => true
    case Other(_) => false
  }

  /** `LabjackChannel.value`: the bit written, `t == ON or t is True`. */
  function WriteValue(t: Target, v: Valuation): bool
  {
    PyEq(t, St(ON), v) || t == B(true)
  }

  /** `check_valid` accepts exactly ON, OFF and the two bools. */
  lemma CheckValidIff(t: Target, v: Valuation)
    requires Distinct(v)
    ensures CheckValid(t, v) <==> t == St(ON) || t == St(OFF) || t.B?
  {
  }

  /** The polarity: ON and True write a 1, every other target a 0 (unless ON's value is 0, making False equal ON). */
  lemma WriteValuePolarity(t: Target, v: Valuation)
    requires Distinct(v) && v(ON) != 0
    ensures WriteValue(t, v) <==> t == St(ON) || t == B(true)
  {
  }

  /** When ON's value is 0, `False == ON` holds, so both bools and ON write a 1; OFF and the other members still write a 0. */
  lemma WriteValueWhenOnIsZero(t: Target, v: Valuation)
    requires Distinct(v) && v(ON) == 0
    ensures WriteValue(t, v) <==> t == St(ON) || t.B?
    ensures WriteValue(B(false), v)
  {
  }

  // ---------------------------------------------------------------------------
  // The port object
  // ---------------------------------------------------------------------------

  /** A port of the LabJack with the reflector state last written to it. */
  class LabjackChannel {
    const channel: string
    var status: Target

    constructor (channel: string, status: Target)
      requires ValidChannel(channel)
      ensures this.channel == channel && this.status == status
    {
      this.channel := channel;
      this.status := status;
    }

    /** `LabjackChannel(channel, status)`: TypeError for a name failing the check; status defaults to UNKNOWN. */
    static method Create(channel: string, status: Target := St(UNKNOWN)) returns (r: Result<LabjackChannel, Error>)
      ensures r.Success? <==> ValidChannel(channel)
      ensures r.Failure? ==> r.error == TypeError("Invalid labjack channel " + channel)
      ensures r.Success? ==> fresh(r.value) && r.value.channel == channel && r.value.status == status
    {
      if !ValidChannel(channel) {
        return Failure(TypeError("Invalid labjack channel " + channel));
      }
      var item := new LabjackChannel(channel, status);
      return Success(item);
    }
  }
}
