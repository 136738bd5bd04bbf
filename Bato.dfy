/** The battery monitor around the state machine: it locates the battery's uevent file, decides
    whether the battery reports energy or charge, scans the file for the present and full values
    and the status, turns them into a percentage, and hands the reading to the state machine once
    per tick. File contents are parameters here; reading them is not part of this model. */
module Bato {
  import opened Wrappers
  import opened Ints
  import opened Text
  import Settings
  import Battery
  import FsmEngine

  const SYS_PATH := "/sys/class/power_supply/"
  const BAT_NAME := "BAT0"
  const UEVENT := "uevent"
  const POWER_SUPPLY := "POWER_SUPPLY"
  const CHARGE_PREFIX := "CHARGE"
  const ENERGY_PREFIX := "ENERGY"
  const FULL_ATTRIBUTE := "FULL"
  const FULL_DESIGN_ATTRIBUTE := "FULL_DESIGN"
  const NOW_ATTRIBUTE := "NOW"
  const STATUS_ATTRIBUTE := "POWER_SUPPLY_STATUS"
  const CONVERSION_ERROR := "out of range integral type conversion attempted"
  const INIT_ERROR := "libnotilus, fail to init"

  /** One line as the line reader yields it: the text, or the read error. */
  type Line = Result<string>

  // ---------------------------------------------------------------- names and paths

  /** `POWER_SUPPLY_<prefix>_<attribute>`. */
  function AttributeName(prefix: string, attribute: string): (r: string)
    ensures |r| == |POWER_SUPPLY| + 2 + |prefix| + |attribute|
    ensures StartsWith(r, POWER_SUPPLY + "_")
    ensures r[|POWER_SUPPLY| + 1..|POWER_SUPPLY| + 1 + |prefix|] == prefix
    ensures r[|POWER_SUPPLY| + 1 + |prefix|] == '_'
    ensures r[|r| - |attribute|..] == attribute
  {
    POWER_SUPPLY + "_" + prefix + "_" + attribute
  }

  /** The battery directory's name: the configured one, or BAT0. */
  function BatName(configured: Option<string>): (r: string)
    ensures configured.None? ==> r == BAT_NAME
    ensures configured.Some? ==> r == configured.value
  {
    configured.GetOr(BAT_NAME)
  }

  /** The uevent file of the battery: the sysfs directory, the battery name, then `/uevent`. The
      battery name can be read back out of the path. */
  function UeventPath(configured: Option<string>): (p: string)
    ensures |p| == |SYS_PATH| + |BatName(configured)| + 7
    ensures StartsWith(p, SYS_PATH)
    ensures p[|SYS_PATH|..|p| - 7] == BatName(configured)
    ensures p[|p| - 7..] == "/uevent"
  {
    var p := SYS_PATH + BatName(configured) + "/" + UEVENT;
    assert p == SYS_PATH + BatName(configured) + "/uevent";
    p
  }

  /** The capacity attribute: FULL_DESIGN unless the configuration says `full_design: false`. */
  function FullAttribute(fullDesign: Option<bool>): (r: string)
    ensures r == FULL_DESIGN_ATTRIBUTE <==> fullDesign != Some(false)
    ensures r == FULL_ATTRIBUTE <==> fullDesign == Some(false)
  {
    if fullDesign.GetOr(true) then FULL_DESIGN_ATTRIBUTE else FULL_ATTRIBUTE
  }

  /** Two configurations share a uevent path exactly when they name the same battery. */
  lemma UeventPathInjective(a: Option<string>, b: Option<string>)
    ensures UeventPath(a) == UeventPath(b) <==> BatName(a) == BatName(b)
  {
    if UeventPath(a) == UeventPath(b) {
      var p := UeventPath(a);
      assert BatName(a) == p[|SYS_PATH|..|p| - 7] == BatName(b);
    }
  }

  // ---------------------------------------------------------------- line parsing

  /** `parse_attribute`: a readable line that starts with `attribute`, whose piece after the
      first `=` (up to any next `=`) parses as an `i32`. */
  function ParseAttribute(line: Line, attribute: string): (r: Option<int>)
    ensures r.Some? ==> line.Ok? && StartsWith(line.value, attribute) && '=' in line.value && InI32(r.value)
    ensures r.Some? ==> SplitSecond(line.value, '=').Some? && ParseI32(SplitSecond(line.value, '=').value) == r
    ensures line.Ok? && StartsWith(line.value, attribute) && '=' in line.value ==>
      r == ParseI32(SplitSecond(line.value, '=').value)
    ensures line.Err? || !StartsWith(line.value, attribute) ==> r.None?
  {
    if line.Ok? && StartsWith(line.value, attribute) then
      match SplitSecond(line.value, '=')
      case None => None
      case Some(v) => ParseI32(v)
    else None
  }

  /** A line `<key>=<value>`, as the kernel writes it, reads back as the value for every
      attribute the key starts with (in particular for the key itself). */
  lemma ParseAttributeLine(key: string, attribute: string, value: int)
    requires '=' !in key && StartsWith(key, attribute) && InI32(value)
    ensures ParseAttribute(Ok(key + "=" + Signed(value)), attribute) == Some(value)
  {
    var l := key + "=" + Signed(value);
    assert l == key + ['='] + Signed(value) + [];
    SplitSecondOf(key, Signed(value), [], '=');
    assert l[..|attribute|] == key[..|attribute|];
    ParseI32Signed(value);
  }

  /** No attribute name holds a `=` unless its parts do. */
  lemma AttributeNameHasNoEquals(prefix: string, attribute: string)
    requires '=' !in prefix && '=' !in attribute
    ensures '=' !in AttributeName(prefix, attribute)
  {
    assert '=' !in POWER_SUPPLY;
  }

  function AttributeParser(attribute: string): Line -> Option<int> {
    line => ParseAttribute(line, attribute)
  }

  /** The evidently intended `parse_attribute`: the line's key, everything before its first `=`,
      must be the attribute itself rather than merely start with it. Where it accepts a line it
      agrees with the prefix match. */
  function ParseAttributeExact(line: Line, attribute: string): (r: Option<int>)
    ensures r.Some? ==> line.Ok? && StartsWith(line.value, attribute + "=") && InI32(r.value)
    ensures '=' !in attribute && r.Some? ==> TakeUntil(line.value, '=') == attribute
    ensures r.Some? ==> r == ParseAttribute(line, attribute)
    ensures line.Ok? && StartsWith(line.value, attribute + "=") ==> r == ParseAttribute(line, attribute)
  {
    if line.Ok? && StartsWith(line.value, attribute + "=") then
      var l := line.value;
      assert l == attribute + ['='] + l[|attribute| + 1..];
      assert '=' !in attribute ==> IndexOf(l, '=') == Some(|attribute|) by {
        if '=' !in attribute { IndexOfAfterKey(attribute, '=', l[|attribute| + 1..]); }
      }
      assert l[..|attribute|] == attribute;
      match SplitSecond(l, '=')
      case None => None
      case Some(v) => ParseI32(v)
    else None
  }

  function ExactParser(attribute: string): Line -> Option<int> {
    line => ParseAttributeExact(line, attribute)
  }

  /** A line `<key>=<value>` reads back as the value for its own key. */
  lemma ParseAttributeExactLine(key: string, value: int)
    requires '=' !in key && InI32(value)
    ensures ParseAttributeExact(Ok(key + "=" + Signed(value)), key) == Some(value)
  {
    var l := key + "=" + Signed(value);
    assert StartsWith(l, key + "=") by {
      assert l[..|key + "="|] == key + "=";
    }
    assert StartsWith(key, key);
    ParseAttributeLine(key, key, value);
  }

  /** `parse_status`: for a readable line that starts with POWER_SUPPLY_STATUS, the piece after
      the first `=` (up to any next `=`); nothing for any other line or when there is no `=`. */
  function ParseStatus(line: Line): (r: Option<string>)
    ensures r.Some? <==> line.Ok? && StartsWith(line.value, STATUS_ATTRIBUTE) && '=' in line.value
    ensures r.Some? ==> '=' !in r.value
    ensures line.Ok? && StartsWith(line.value, STATUS_ATTRIBUTE) ==> r == SplitSecond(line.value, '=')
  {
    if line.Ok? && StartsWith(line.value, STATUS_ATTRIBUTE) then SplitSecond(line.value, '=') else None
  }

  /** A status line reads back as its status word. */
  lemma ParseStatusLine(status: string)
    requires '=' !in status
    ensures ParseStatus(Ok(STATUS_ATTRIBUTE + "=" + status)) == Some(status)
  {
    var l := STATUS_ATTRIBUTE + "=" + status;
    assert l == STATUS_ATTRIBUTE + ['='] + status + [];
    assert l[..|STATUS_ATTRIBUTE|] == STATUS_ATTRIBUTE;
    SplitSecondOf(STATUS_ATTRIBUTE, status, [], '=');
  }

  // ---------------------------------------------------------------- the attribute scan

  /** `parse` accepts no line, checked line by line from the first. */
  predicate NoneAccepted<T>(lines: seq<Line>, parse: Line -> Option<T>)
    decreases |lines|
  {
    |lines| == 0 || (parse(lines[0]).None? && NoneAccepted(lines[1..], parse))
  }

  /** The value the first line that `parse` accepts yields; none exactly when no line is accepted. */
  function FirstMatch<T>(lines: seq<Line>, parse: Line -> Option<T>): (r: Option<T>)
    ensures r.None? <==> NoneAccepted(lines, parse)
    decreases |lines|
  {
    if |lines| == 0 then None
    else if parse(lines[0]).Some? then parse(lines[0])
    else
      FirstMatch(lines[1..], parse)
  }

  /** The scan finds nothing exactly when no line is accepted, and otherwise yields the value of
      an accepted line with no accepted line before it. */
  lemma {:induction false} FirstMatchIsFirst<T>(lines: seq<Line>, parse: Line -> Option<T>)
    ensures FirstMatch(lines, parse).None? <==> forall j :: 0 <= j < |lines| ==> parse(lines[j]).None?
    ensures FirstMatch(lines, parse).Some? ==>
      exists i :: 0 <= i < |lines| && parse(lines[i]) == FirstMatch(lines, parse) &&
        forall j :: 0 <= j < i ==> parse(lines[j]).None?
    decreases |lines|
  {
    if |lines| > 0 && parse(lines[0]).None? {
      var r := FirstMatch(lines[1..], parse);
      FirstMatchIsFirst(lines[1..], parse);
      assert forall j :: 1 <= j < |lines| ==> lines[j] == lines[1..][j - 1];
      if r.Some? {
        var i :| 0 <= i < |lines[1..]| && parse(lines[1..][i]) == r && forall j :: 0 <= j < i ==> parse(lines[1..][j]).None?;
        assert parse(lines[i + 1]) == r;
      }
    } else if |lines| > 0 {
      assert parse(lines[0]) == FirstMatch(lines, parse);
    }
  }

  /** Reading one more line keeps an earlier match and otherwise takes what that line yields. */
  lemma {:induction false} FirstMatchSnoc<T>(lines: seq<Line>, line: Line, parse: Line -> Option<T>)
    ensures FirstMatch(lines + [line], parse) ==
      if FirstMatch(lines, parse).Some? then FirstMatch(lines, parse) else parse(line)
    decreases |lines|
  {
    if |lines| == 0 {
      assert lines + [line] == [line];
      assert [line][1..] == [];
    } else {
      assert (lines + [line])[0] == lines[0];
      assert (lines + [line])[1..] == lines[1..] + [line];
      FirstMatchSnoc(lines[1..], line, parse);
    }
  }

  function ScanError(uevent: string): string {
    "unable to parse the required attributes in " + uevent
  }

  /** What the scan of a uevent file's lines yields: the first present value, the first capacity
      value and the first status, or an error naming the file when any of the three is missing. */
  function Scan(lines: seq<Line>, uevent: string, nowAttribute: string, fullAttribute: string): (r: Result<(int, int, string)>)
    ensures r.Ok? ==> InI32(r.value.0) && InI32(r.value.1)
  {
    var now := FirstMatch(lines, ExactParser(nowAttribute));
    var full := FirstMatch(lines, ExactParser(fullAttribute));
    var status := FirstMatch(lines, ParseStatus);
    if now.None? || full.None? || status.None? then Err(ScanError(uevent))
    else
      assert InI32(now.value) && InI32(full.value) by {
        FirstMatchIsFirst(lines, ExactParser(nowAttribute));
        FirstMatchIsFirst(lines, ExactParser(fullAttribute));
        var i :| 0 <= i < |lines| && ExactParser(nowAttribute)(lines[i]) == now;
        var k :| 0 <= k < |lines| && ExactParser(fullAttribute)(lines[k]) == full;
      }
      Ok((now.value, full.value, status.value))
  }

  /** `parse_attributes`: one pass over the lines; each of the three values is taken from the
      first line that yields it and never overwritten. A file that cannot be opened is an error. */
  method ParseAttributes(uevent: string, nowAttribute: string, fullAttribute: string, file: Result<seq<Line>>)
    returns (r: Result<(int, int, string)>)
    ensures file.Err? ==> r == Err(file.error)
    ensures file.Ok? ==> r == Scan(file.value, uevent, nowAttribute, fullAttribute)
  {
    if file.Err? {
      return Err(file.error);
    }
    var lines := file.value;
    var now: Option<int> := None;
    var full: Option<int> := None;
    var status: Option<string> := None;
    for i := 0 to |lines|
      invariant now == FirstMatch(lines[..i], ExactParser(nowAttribute))
      invariant full == FirstMatch(lines[..i], ExactParser(fullAttribute))
      invariant status == FirstMatch(lines[..i], ParseStatus)
    {
      assert lines[..i + 1] == lines[..i] + [lines[i]];
      FirstMatchSnoc(lines[..i], lines[i], ExactParser(nowAttribute));
      FirstMatchSnoc(lines[..i], lines[i], ExactParser(fullAttribute));
      FirstMatchSnoc(lines[..i], lines[i], ParseStatus);
      if now.None? {
        now := ParseAttributeExact(lines[i], nowAttribute);
      }
      if full.None? {
        full := ParseAttributeExact(lines[i], fullAttribute);
      }
      if status.None? {
        status := ParseStatus(lines[i]);
      }
    }
    assert lines[..|lines|] == lines;
    if now.None? || full.None? || status.None? {
      return Err(ScanError(uevent));
    }
    r := Ok((now.value, full.value, status.value));
  }

  // ---------------------------------------------------------------- energy or charge

  /** The content lists `POWER_SUPPLY_<unit>_FULL_DESIGN=`, `..._FULL=` and `..._NOW=`. */
  predicate HasUnit(content: string, unit: string) {
    && Contains(content, AttributeName(unit, FULL_DESIGN_ATTRIBUTE) + "=")
    && Contains(content, AttributeName(unit, FULL_ATTRIBUTE) + "=")
    && Contains(content, AttributeName(unit, NOW_ATTRIBUTE) + "=")
  }

  function PrefixError(path: string): string {
    "unable to find the required attributes in " + path
  }

  /** `find_attribute_prefix` on the file's content: ENERGY when all three energy keys are there,
      else CHARGE when all three charge keys are, else an error naming the file. A read failure is
      passed on. */
  function FindAttributePrefix(path: string, content: Result<string>): (r: Result<string>)
    ensures content.Err? ==> r == Err(content.error)
    ensures content.Ok? ==> (r == Ok(ENERGY_PREFIX) <==> HasUnit(content.value, ENERGY_PREFIX))
    ensures content.Ok? ==>
      (r == Ok(CHARGE_PREFIX) <==> !HasUnit(content.value, ENERGY_PREFIX) && HasUnit(content.value, CHARGE_PREFIX))
    ensures content.Ok? && r.Err? ==> r.error == PrefixError(path)
    ensures r.Ok? ==> r.value == ENERGY_PREFIX || r.value == CHARGE_PREFIX
  {
    match content
    case Err(e) => Err(e)
    case Ok(c) =>
      if HasUnit(c, ENERGY_PREFIX) then Ok(ENERGY_PREFIX)
      else if HasUnit(c, CHARGE_PREFIX) then Ok(CHARGE_PREFIX)
      else Err(PrefixError(path))
  }

  /** Whichever unit is chosen and whichever capacity attribute is configured, the two attribute
      names the monitor will scan for appear as keys in the file it chose them from. */
  lemma ChosenAttributesPresent(path: string, content: string, fullDesign: Option<bool>)
    requires FindAttributePrefix(path, Ok(content)).Ok?
    ensures var p := FindAttributePrefix(path, Ok(content)).value;
      && Contains(content, AttributeName(p, NOW_ATTRIBUTE) + "=")
      && Contains(content, AttributeName(p, FullAttribute(fullDesign)) + "=")
  {
  }

  // ---------------------------------------------------------------- the level

  /** The computation panics when the capacity is 0 (division by zero) or when `100 * energy`
      overflows `u64`; those inputs are outside what the program handles. */
  predicate LevelDefined(energy: int, capacity: int)
    requires InI32(energy) && InI32(capacity)
  {
    I32AsU64(capacity) != 0 && 100 * I32AsU64(energy) < U64_LIMIT
  }

  /** Integer division rounding down, as `u64` division does on its non-negative operands: the
      quotient brackets the dividend between two consecutive multiples of the divisor. */
  function FloorDiv(n: nat, c: nat): (q: nat)
    requires 0 < c
    ensures q * c <= n < (q + 1) * c
  {
    assert n == (n / c) * c + n % c;
    assert (n / c + 1) * c == (n / c) * c + c;
    n / c
  }

  lemma MultiplyMonotone(a: int, b: int, c: int)
    requires a <= b && 0 <= c
    ensures a * c <= b * c
  {
    assert b * c - a * c == (b - a) * c;
  }

  lemma MultiplyCancel(a: int, b: int, c: int)
    requires 0 < c && a * c <= b * c
    ensures a <= b
  {
    assert (b - a) * c == b * c - a * c;
  }

  /** `u32::try_from(100 * energy / capacity)` with both values first cast to `u64`: the floor of
      the percentage, or an error when it does not fit in 32 bits. */
  function BatteryLevel(energy: int, capacity: int): (r: Result<U32>)
    requires InI32(energy) && InI32(capacity) && LevelDefined(energy, capacity)
    ensures r.Ok? ==>
      r.value * I32AsU64(capacity) <= 100 * I32AsU64(energy) < (r.value + 1) * I32AsU64(capacity)
    ensures r.Err? ==> U32_LIMIT * I32AsU64(capacity) <= 100 * I32AsU64(energy) && r.error == CONVERSION_ERROR
  {
    var n := 100 * I32AsU64(energy);
    var c := I32AsU64(capacity);
    var level := FloorDiv(n, c);
    if level < U32_LIMIT then Ok(level)
    else
      MultiplyMonotone(U32_LIMIT, level, c);
      Err(CONVERSION_ERROR)
  }

  /** A present value between 0 and a positive capacity gives a percentage between 0 and 100. */
  lemma LevelIsPercentage(energy: int, capacity: int)
    requires InI32(energy) && InI32(capacity) && 0 <= energy <= capacity && 0 < capacity
    ensures LevelDefined(energy, capacity)
    ensures BatteryLevel(energy, capacity).Ok? && BatteryLevel(energy, capacity).value <= 100
  {
    var level := FloorDiv(100 * energy, capacity);
    MultiplyMonotone(energy, capacity, 100);
    MultiplyCancel(level, 100, capacity);
  }

  // ---------------------------------------------------------------- the full/full-design prefix clash

  /** The capacity key without the design suffix is a prefix of the design key. */
  lemma FullIsPrefixOfFullDesign(prefix: string)
    ensures AttributeName(prefix, FULL_DESIGN_ATTRIBUTE) == AttributeName(prefix, FULL_ATTRIBUTE) + "_DESIGN"
  {
  }

  /** As the program is written, with `full_design: false` and the design line listed first (the
      kernel's order), the scan for `POWER_SUPPLY_<unit>_FULL` stops at the FULL_DESIGN line and
      reads the design capacity, whatever the actual full capacity is. */
  lemma FullDesignShadowsFull(prefix: string, design: int, full: int)
    requires '=' !in prefix && InI32(design) && InI32(full)
    ensures
      var designLine := Ok(AttributeName(prefix, FULL_DESIGN_ATTRIBUTE) + "=" + Signed(design));
      var fullLine := Ok(AttributeName(prefix, FULL_ATTRIBUTE) + "=" + Signed(full));
      FirstMatch([designLine, fullLine], AttributeParser(AttributeName(prefix, FULL_ATTRIBUTE))) == Some(design)
  {
    var attribute := AttributeName(prefix, FULL_ATTRIBUTE);
    var designKey := AttributeName(prefix, FULL_DESIGN_ATTRIBUTE);
    AttributeNameHasNoEquals(prefix, FULL_DESIGN_ATTRIBUTE);
    FullIsPrefixOfFullDesign(prefix);
    assert StartsWith(designKey, attribute) by {
      assert designKey[..|attribute|] == attribute;
    }
    ParseAttributeLine(designKey, attribute, design);
  }

  /** With exact keys the same file yields the actual full capacity. */
  lemma ExactKeyNotShadowed(prefix: string, design: int, full: int)
    requires '=' !in prefix && InI32(design) && InI32(full)
    ensures
      var designLine := Ok(AttributeName(prefix, FULL_DESIGN_ATTRIBUTE) + "=" + Signed(design));
      var fullLine := Ok(AttributeName(prefix, FULL_ATTRIBUTE) + "=" + Signed(full));
      FirstMatch([designLine, fullLine], ExactParser(AttributeName(prefix, FULL_ATTRIBUTE))) == Some(full)
  {
    var attribute := AttributeName(prefix, FULL_ATTRIBUTE);
    var designKey := AttributeName(prefix, FULL_DESIGN_ATTRIBUTE);
    FullIsPrefixOfFullDesign(prefix);
    AttributeNameHasNoEquals(prefix, FULL_ATTRIBUTE);
    var dl := designKey + "=" + Signed(design);
    assert dl[|attribute|] == '_';
    assert ParseAttributeExact(Ok(dl), attribute).None?;
    ParseAttributeExactLine(attribute, full);
  }

  // ---------------------------------------------------------------- the monitor

  /** The reading a tick hands to the state machine. */
  function TickData(config: Settings.Config, level: U32, status: string, handle: Battery.NotifyHandle): (d: Battery.Data)
    reads config
    ensures d.currentLevel == level && d.status == status && d.notification == handle
    ensures d.lowLevel == config.lowLevel && d.criticalLevel == config.criticalLevel
    ensures d.critical == config.critical && d.low == config.low && d.full == config.full
    ensures d.charging == config.charging && d.discharging == config.discharging
  {
    Battery.Data(level, status, config.lowLevel, config.criticalLevel, config.critical, config.low,
                 config.full, config.charging, config.discharging, handle)
  }

  class Bato {
    const uevent: string
    const nowAttribute: string
    const fullAttribute: string
    var notification: Battery.NotifyHandle
    const fsm: FsmEngine.Fsm<Battery.State, Battery.Data, Battery.Sent>

    constructor (uevent: string, nowAttribute: string, fullAttribute: string,
                 fsm: FsmEngine.Fsm<Battery.State, Battery.Data, Battery.Sent>)
      ensures this.uevent == uevent && this.nowAttribute == nowAttribute && this.fullAttribute == fullAttribute
      ensures this.fsm == fsm && notification == Battery.NULL_HANDLE
    {
      this.uevent := uevent;
      this.nowAttribute := nowAttribute;
      this.fullAttribute := fullAttribute;
      this.fsm := fsm;
      notification := Battery.NULL_HANDLE;
    }

    /** `with_config`: build the uevent path from the battery name, choose the unit from the file's
        content (`content` is what reading that path gave), and name the two attributes; the
        machine starts fresh in Discharging and the notifier handle is null until `Start`. */
    static method WithConfig(config: Settings.Config, content: Result<string>) returns (r: Result<Bato>)
      ensures var prefix := FindAttributePrefix(UeventPath(config.batName), content);
        && (prefix.Err? ==> r == Err(prefix.error))
        && (prefix.Ok? ==>
              && r.Ok?
              && fresh(r.value) && fresh(r.value.fsm)
              && r.value.uevent == UeventPath(config.batName)
              && r.value.nowAttribute == AttributeName(prefix.value, NOW_ATTRIBUTE)
              && r.value.fullAttribute == AttributeName(prefix.value, FullAttribute(config.fullDesign))
              && r.value.notification == Battery.NULL_HANDLE
              && Battery.Assembled(r.value.fsm)
              && r.value.fsm.currentState == Battery.Discharging)
    {
      var fullAttr := FullAttribute(config.fullDesign);
      var path := UeventPath(config.batName);
      var prefix := FindAttributePrefix(path, content);
      if prefix.Err? {
        return Err(prefix.error);
      }
      var fsm := Battery.CreateFsm();
      var bato := new Bato(path, AttributeName(prefix.value, NOW_ATTRIBUTE), AttributeName(prefix.value, fullAttr), fsm);
      r := Ok(bato);
    }

    /** `start`: keep the handle the native library's init returned, or fail when it is null. */
    method Start(native: Battery.NotifyHandle) returns (r: Result<()>)
      modifies this`notification
      ensures native == Battery.NULL_HANDLE ==> r == Err(INIT_ERROR) && notification == old(notification)
      ensures native != Battery.NULL_HANDLE ==> r == Ok(()) && notification == native
    {
      if native == Battery.NULL_HANDLE {
        return Err(INIT_ERROR);
      }
      notification := native;
      r := Ok(());
    }

    /** `update`, one tick: scan the uevent file (`file` is what opening and reading it gave),
        compute the level, and shift the machine once on the resulting reading. Any error leaves
        the machine where it was and sends nothing; otherwise the machine takes one step and sends
        at most one notification, and only when its state changed. */
    method Update(config: Settings.Config, file: Result<seq<Line>>) returns (r: Result<()>, sent: seq<Battery.Sent>)
      requires Battery.Assembled(fsm)
      requires file.Ok? ==>
        var a := Scan(file.value, uevent, nowAttribute, fullAttribute);
        a.Ok? ==> LevelDefined(a.value.0, a.value.1)
      modifies fsm
      ensures Battery.Assembled(fsm)
      ensures |sent| <= 1
      ensures sent != [] ==> fsm.currentState != old(fsm.currentState)
      ensures r.Err? ==> sent == [] && fsm.currentState == old(fsm.currentState)
      ensures file.Err? ==> r == Err(file.error)
      ensures file.Ok? ==>
        var a := Scan(file.value, uevent, nowAttribute, fullAttribute);
        && (a.Err? ==> r == Err(a.error))
        && (a.Ok? ==>
              var level := BatteryLevel(a.value.0, a.value.1);
              && (level.Err? ==> r == Err(level.error))
              && (level.Ok? ==>
                    var d := TickData(config, level.value, a.value.2, notification);
                    && r == Ok(())
                    && fsm.currentState == Battery.After(old(fsm.currentState), d)
                    && sent == Battery.Sends(old(fsm.currentState), d)))
    {
      var attributes := ParseAttributes(uevent, nowAttribute, fullAttribute, file);
      if attributes.Err? {
        return Err(attributes.error), [];
      }
      var (energy, capacity, status) := attributes.value;
      var level := BatteryLevel(energy, capacity);
      if level.Err? {
        return Err(level.error), [];
      }
      var data := TickData(config, level.value, status, notification);
      ghost var before := fsm.currentState;
      sent := fsm.Shift(data);
      Battery.AtMostOneNotification(before, data);
      r := Ok(());
    }
  }
}
