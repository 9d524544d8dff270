/** Memory sizes as text, and the resource limits made from them. */
module Limits {
  import opened Wrappers

  const I64_MAX := 0x7fff_ffff_ffff_ffff
  const I64_MIN := -0x8000_0000_0000_0000

  predicate IsDigit(c: char) {
    '0' <= c <= '9'
  }

  predicate IsLetter(c: char) {
    'a' <= c <= 'z' || 'A' <= c <= 'Z'
  }

  function Lower(c: char): char {
    if 'A' <= c <= 'Z' then c + 'a' - 'A' else c
  }

  function LowerAll(s: string): string {
    seq(|s|, i requires 0 <= i < |s| => Lower(s[i]))
  }

  // ---- Numbers as text ----

  function Digits(s: string): Option<nat> {
    if s == "" then Some(0)
    else if !IsDigit(s[|s| - 1]) then None
    else
      match Digits(s[..|s| - 1])
      case None => None
      case Some(high) => Some(10 * high + (s[|s| - 1] as int - '0' as int))
  }

  // `str::parse::<i64>`: an optional sign, at least one digit, and no overflow.
  function ParseI64(s: string): Option<int> {
    var negative := s != "" && s[0] == '-';
    var digits := if s != "" && (s[0] == '-' || s[0] == '+') then s[1..] else s;
    match Digits(digits)
    case None => None
    case Some(n) =>
      var magnitude: int := n;
      var value := if negative then -magnitude else magnitude;
      if digits != "" && I64_MIN <= value <= I64_MAX then Some(value) else None
  }

  function DigitChar(d: nat): (c: char)
    requires d < 10
    ensures IsDigit(c) && c as int - '0' as int == d
  {
    '0' + d as char
  }

  function DecimalNat(n: nat): string {
    if n < 10 then [DigitChar(n)] else DecimalNat(n / 10) + [DigitChar(n % 10)]
  }

  function Decimal(n: int): string {
    if n < 0 then "-" + DecimalNat(-n) else DecimalNat(n)
  }

  lemma {:induction false} DecimalIsRead(n: nat)
    ensures Digits(DecimalNat(n)) == Some(n)
    ensures DecimalNat(n) != "" && forall i :: 0 <= i < |DecimalNat(n)| ==> IsDigit(DecimalNat(n)[i])
  {
    if n >= 10 {
      DecimalIsRead(n / 10);
      DigitAppended(DecimalNat(n / 10), n % 10);
    } else {
      DigitAppended("", n);
      assert "" + [DigitChar(n)] == [DigitChar(n)];
    }
  }

  lemma DigitAppended(s: string, d: nat)
    requires d < 10 && Digits(s).Some?
    ensures Digits(s + [DigitChar(d)]) == Some(10 * Digits(s).value + d)
  {
    var t := s + [DigitChar(d)];
    assert t[..|t| - 1] == s;
  }

  lemma {:induction false} DigitsHaveNoLetters(s: string)
    requires Digits(s).Some?
    ensures forall i :: 0 <= i < |s| ==> IsDigit(s[i])
  {
    if s != "" {
      DigitsHaveNoLetters(s[..|s| - 1]);
      assert forall i :: 0 <= i < |s| - 1 ==> s[i] == s[..|s| - 1][i];
    }
  }

  // ---- Sizes ----

  function TrimLetters(s: string): (r: string)
    ensures r <= s && (r == "" || !IsLetter(r[|r| - 1]))
    ensures forall i :: |r| <= i < |s| ==> IsLetter(s[i])
  {
    if s != "" && IsLetter(s[|s| - 1]) then TrimLetters(s[..|s| - 1]) else s
  }

  // Which power of 1024 a unit, in small letters, stands for.
  function UnitPower(unit: string): Option<nat> {
    if unit == "" || unit == "b" then Some(0)
    else if unit == "k" || unit == "kb" || unit == "kib" then Some(1)
    else if unit == "m" || unit == "mb" || unit == "mib" then Some(2)
    else if unit == "g" || unit == "gb" || unit == "gib" then Some(3)
    else if unit == "t" || unit == "tb" || unit == "tib" then Some(4)
    else None
  }

  function Pow1024(k: nat): (r: nat)
    ensures r > 0
  {
    if k == 0 then 1 else 1024 * Pow1024(k - 1)
  }

  function ParseMemory(value: string): (r: Result<int>)
    ensures r.Ok? ==> 0 <= r.value <= I64_MAX
  {
    var digits := TrimLetters(value);
    match (ParseI64(digits), UnitPower(LowerAll(value[|digits|..])))
    case (Some(amount), Some(k)) =>
      if amount >= 0 && amount * Pow1024(k) <= I64_MAX then Ok(amount * Pow1024(k)) else Err
    case _ => Err
  }

  function ParseSize(value: string): Result<int> {
    match ParseMemory(value)
    case Ok(size) => if size == 0 then Err else Ok(size)
    case Err => Err
  }

  // The text is, in some way, a non-negative 64-bit amount followed by a unit in any case, and stands for that many
  // bytes.
  ghost predicate Denotes(value: string, bytes: int) {
    exists i: nat, k: nat :: i <= |value| && UnitPower(LowerAll(value[i..])) == Some(k) &&
      ParseI64(value[..i]).Some? && ParseI64(value[..i]).value >= 0 &&
      bytes == ParseI64(value[..i]).value * Pow1024(k)
  }

  // A size is read exactly when its text denotes one that fits 64 bits, and as exactly that many bytes.
  lemma ParseMemoryReadsWhatIsDenoted(value: string, bytes: int)
    ensures ParseMemory(value) == Ok(bytes) <==> Denotes(value, bytes) && bytes <= I64_MAX
  {
    var digits := TrimLetters(value);
    assert value[..|digits|] == digits;
    if Denotes(value, bytes) {
      var i: nat, k: nat :| i <= |value| && UnitPower(LowerAll(value[i..])) == Some(k) &&
        ParseI64(value[..i]).Some? && ParseI64(value[..i]).value >= 0 &&
        bytes == ParseI64(value[..i]).value * Pow1024(k);
      SplitIsTrim(value, i);
    }
  }

  // A number ends in no letter and a unit holds nothing else, so there is one way to take the text apart.
  lemma SplitIsTrim(value: string, i: nat)
    requires i <= |value| && ParseI64(value[..i]).Some? && UnitPower(LowerAll(value[i..])).Some?
    ensures TrimLetters(value) == value[..i]
  {
    hide TrimLetters, UnitPower, LowerAll, Digits;
    var amount, unit, r := value[..i], value[i..], TrimLetters(value);
    var digits := if amount != "" && (amount[0] == '-' || amount[0] == '+') then amount[1..] else amount;
    DigitsHaveNoLetters(digits);
    assert amount != "" && amount[|amount| - 1] == digits[|digits| - 1];
    assert !IsLetter(amount[|amount| - 1]) && amount[|amount| - 1] == value[i - 1];
    UnitsAreLetters(unit);
    forall j | i <= j < |value| ensures IsLetter(value[j]) {
      assert value[j] == unit[j - i];
    }
    assert |r| == i;
  }

  lemma UnitsAreLetters(unit: string)
    requires UnitPower(LowerAll(unit)).Some?
    ensures forall j :: 0 <= j < |unit| ==> IsLetter(unit[j])
  {
    var lower := LowerAll(unit);
    forall j | 0 <= j < |unit| ensures IsLetter(unit[j]) {
      assert lower[j] == Lower(unit[j]);
      assert 'a' <= lower[j] <= 'z';
    }
  }

  // A count may carry a sign, and only a negative one changes it.
  lemma SignsInPlainTerms(n: int)
    requires 0 <= n <= I64_MAX
    ensures ParseI64(DecimalNat(n)) == ParseI64("+" + DecimalNat(n)) == Some(n)
    ensures ParseI64("-" + DecimalNat(n)) == Some(-n)
    ensures ParseI64("").None? && ParseI64("+").None? && ParseI64("-").None?
  {
    hide DecimalNat;
    DecimalIsRead(n);
    var text := DecimalNat(n);
    assert ("+" + text)[1..] == text && ("-" + text)[1..] == text;
    assert "+"[1..] == "" && "-"[1..] == "";
  }

  // ---- Sizes in plain terms ----

  // The same word, in capitals or small letters.
  predicate Spells(text: string, word: string) {
    |text| == |word| &&
    forall i :: 0 <= i < |word| ==> text[i] == word[i] || text[i] as int + 32 == word[i] as int
  }

  // A count followed by a unit in any case means so many bytes, as long as that fits 64 bits; any other unit is refused.
  lemma SizesInPlainTerms(n: nat, unit: string)
    requires forall i :: 0 <= i < |unit| ==> !('0' <= unit[i] <= '9')
    ensures ParseMemory(Decimal(n) + unit) ==
            if Spells(unit, "") || Spells(unit, "b") then Fitting(n)
            else if Spells(unit, "k") || Spells(unit, "kb") || Spells(unit, "kib") then Fitting(n * 1024)
            else if Spells(unit, "m") || Spells(unit, "mb") || Spells(unit, "mib") then Fitting(n * 1_048_576)
            else if Spells(unit, "g") || Spells(unit, "gb") || Spells(unit, "gib") then Fitting(n * 1_073_741_824)
            else if Spells(unit, "t") || Spells(unit, "tb") || Spells(unit, "tib") then Fitting(n * 1_099_511_627_776)
            else Err
  {
    hide DecimalNat, Digits, TrimLetters, UnitPower, LowerAll, Pow1024, Spells;
    var text := DecimalNat(n) + unit;
    DecimalIsRead(n);
    UnitsInPlainTerms(unit);
    PowersInPlainTerms();
    if forall i :: 0 <= i < |unit| ==> IsLetter(unit[i]) {
      TrimsTo(DecimalNat(n), unit);
      assert text[|DecimalNat(n)|..] == unit;
      assert ParseI64(DecimalNat(n)) == if n <= I64_MAX then Some(n) else None;
    } else {
      if UnitPower(LowerAll(unit)).Some? {
        UnitsAreLetters(unit);
      }
      NoNumberLeft(DecimalNat(n), unit);
    }
  }

  function Fitting(bytes: int): Result<int> {
    if bytes <= 9_223_372_036_854_775_807 then Ok(bytes) else Err
  }

  lemma PowersInPlainTerms()
    ensures Pow1024(0) == 1 && Pow1024(1) == 1024 && Pow1024(2) == 1_048_576
    ensures Pow1024(3) == 1_073_741_824 && Pow1024(4) == 1_099_511_627_776
  {
  }

  lemma UnitsInPlainTerms(unit: string)
    ensures UnitPower(LowerAll(unit)) ==
            if Spells(unit, "") || Spells(unit, "b") then Some(0)
            else if Spells(unit, "k") || Spells(unit, "kb") || Spells(unit, "kib") then Some(1)
            else if Spells(unit, "m") || Spells(unit, "mb") || Spells(unit, "mib") then Some(2)
            else if Spells(unit, "g") || Spells(unit, "gb") || Spells(unit, "gib") then Some(3)
            else if Spells(unit, "t") || Spells(unit, "tb") || Spells(unit, "tib") then Some(4)
            else None
  {
    hide Spells, LowerAll;
    LowerSpells(unit, "");
    LowerSpells(unit, "b");
    LowerSpells(unit, "k");
    LowerSpells(unit, "kb");
    LowerSpells(unit, "kib");
    LowerSpells(unit, "m");
    LowerSpells(unit, "mb");
    LowerSpells(unit, "mib");
    LowerSpells(unit, "g");
    LowerSpells(unit, "gb");
    LowerSpells(unit, "gib");
    LowerSpells(unit, "t");
    LowerSpells(unit, "tb");
    LowerSpells(unit, "tib");
  }

  lemma LowerSpells(text: string, word: string)
    requires forall i :: 0 <= i < |word| ==> 'a' <= word[i] <= 'z'
    ensures LowerAll(text) == word <==> Spells(text, word)
  {
    var lower := LowerAll(text);
    if lower == word {
      assert forall i :: 0 <= i < |word| ==> word[i] == Lower(text[i]);
    }
    if Spells(text, word) {
      assert forall i :: 0 <= i < |word| ==> lower[i] == word[i];
    }
  }

  lemma TrimsTo(amount: string, unit: string)
    requires amount == "" || !IsLetter(amount[|amount| - 1])
    requires forall i :: 0 <= i < |unit| ==> IsLetter(unit[i])
    ensures TrimLetters(amount + unit) == amount
  {
    hide TrimLetters;
    var (text, r) := (amount + unit, TrimLetters(amount + unit));
    assert forall j :: |amount| <= j < |text| ==> text[j] == unit[j - |amount|];
    assert r == text[..|r|] && amount == text[..|amount|];
    assert |r| <= |amount|;
    assert |r| >= |amount|;
  }

  lemma LastIsDigit(s: string)
    ensures s != "" && Digits(s).Some? ==> IsDigit(s[|s| - 1])
  {
  }

  // What is left of a text whose unit holds something else than letters is no number.
  lemma NoNumberLeft(amount: string, unit: string)
    requires amount != "" && IsDigit(amount[0]) && Digits(amount).Some?
    requires (forall i :: 0 <= i < |unit| ==> !IsDigit(unit[i])) && exists i :: 0 <= i < |unit| && !IsLetter(unit[i])
    ensures ParseI64(TrimLetters(amount + unit)).None?
  {
    hide TrimLetters, Digits;
    var (text, r) := (amount + unit, TrimLetters(amount + unit));
    LastIsDigit(r);
    var i :| 0 <= i < |unit| && !IsLetter(unit[i]);
    assert text[|amount| + i] == unit[i];
    assert |r| > |amount| + i;
    assert r[|r| - 1] == unit[|r| - 1 - |amount|] && r[0] == amount[0];
  }

  // ---- From TOML ----

  datatype Toml = Integer(value: int) | Text(text: string) | Other

  // The value of a size key: a TOML integer is handed on as its decimal text, anything but a string refused.
  function Size(v: Option<Toml>): Result<Option<string>> {
    match v
    case None => Ok(None)
    case Some(Integer(n)) => Ok(Some(Decimal(n)))
    case Some(Text(s)) => Ok(Some(s))
    case Some(Other) => Err
  }

  // A byte count written as a TOML integer means that many bytes, and a negative one is refused.
  lemma IntegersSurvive(n: int)
    requires I64_MIN <= n <= I64_MAX
    ensures Size(Some(Integer(n))) == Ok(Some(Decimal(n)))
    ensures ParseMemory(Decimal(n)) == if n >= 0 then Ok(n) else Err
  {
    hide TrimLetters, DecimalNat, Digits, Pow1024;
    var s := Decimal(n);
    DecimalIsRead(if n < 0 then -n else n);
    assert n < 0 ==> s[1..] == DecimalNat(-n);
    assert ParseI64(s) == Some(n);
    assert s[..|s|] == s && LowerAll(s[|s|..]) == "";
    SplitIsTrim(s, |s|);
    NoPower();
  }

  lemma NoPower()
    ensures Pow1024(0) == 1
  {
  }

  // ---- Limits ----

  // A floating-point number as TOML can spell it. A CPU limit is only ever looked at for its sign here.
  datatype Float = Finite(value: real) | Infinite(positive: bool) | NaN

  predicate Positive(f: Float) {
    match f
    case Finite(x) => x > 0.0
    case Infinite(positive) => positive
    case NaN => false
  }

  // The comparison as floating point makes it: with a NaN on one side it does not hold.
  predicate AtMostZero(f: Float) {
    match f
    case Finite(x) => x <= 0.0
    case Infinite(positive) => !positive
    case NaN => false
  }

  datatype Config = Config(
    memory: Option<string>, swap: Option<string>, memoryHigh: Option<string>,
    cpu: Option<Float>, cpuShares: Option<int>, pids: Option<int>)

  // What reaches the runtime: swap is stated together with memory, and the high mark as text.
  datatype Resources = Resources(
    limit: Option<int>, swapTotal: Option<int>, high: Option<string>,
    cpu: Option<Float>, shares: Option<int>, pids: Option<int>)

  predicate NothingSet(c: Config) {
    c == Config(None, None, None, None, None, None)
  }

  function MemoryOf(c: Config): Option<int> {
    if c.memory.Some? && ParseSize(c.memory.value).Ok? then Some(ParseSize(c.memory.value).value) else None
  }

  // The configs that make sense.
  predicate Acceptable(c: Config) {
    && MemoryAcceptable(c) && HighAcceptable(c, MemoryOf(c))
    && (c.cpu.Some? ==> Positive(c.cpu.value))
    && (c.cpuShares.Some? ==> 2 <= c.cpuShares.value <= 262_144)
    && (c.pids.Some? ==> c.pids.value > 0)
  }

  // What the memory keys come to: swap needs a memory limit to sit on top of, and nothing wraps.
  ghost predicate MemoryStated(c: Config, out: Resources) {
    && (out.limit.Some? <==> c.memory.Some?) && (out.swapTotal.Some? <==> c.swap.Some?)
    && (out.limit.Some? ==> Denotes(c.memory.value, out.limit.value) && 0 < out.limit.value <= I64_MAX)
    && (out.swapTotal.Some? ==>
          && out.limit.Some? && Denotes(c.swap.value, out.swapTotal.value - out.limit.value)
          && out.limit.value <= out.swapTotal.value <= I64_MAX)
  }

  ghost predicate HighStated(c: Config, out: Resources) {
    && (out.high.Some? <==> c.memoryHigh.Some?)
    && (out.high.Some? ==>
          && ParseMemory(out.high.value).Ok? && Denotes(c.memoryHigh.value, ParseMemory(out.high.value).value)
          && 0 < ParseMemory(out.high.value).value
          && (out.limit.Some? ==> ParseMemory(out.high.value).value < out.limit.value))
  }

  // Exactly the acceptable configs give limits. Taking the memory limit back out of the swap total gives the stated
  // swap, the high mark reads back as the stated one, positive and below any memory limit, and nothing has wrapped.
  method MakeResources(c: Config) returns (r: Result<Option<Resources>>)
    ensures r.Ok? <==> Acceptable(c)
    ensures r.Ok? <==>
            && (c.memory.Some? ==> ParseMemory(c.memory.value).Ok? && ParseMemory(c.memory.value).value > 0)
            && (c.swap.Some? ==>
                  && c.memory.Some? && ParseMemory(c.swap.value).Ok?
                  && ParseMemory(c.memory.value).value + ParseMemory(c.swap.value).value <= 9_223_372_036_854_775_807)
            && (c.memoryHigh.Some? ==>
                  && ParseMemory(c.memoryHigh.value).Ok? && ParseMemory(c.memoryHigh.value).value > 0
                  && (c.memory.Some? ==> ParseMemory(c.memoryHigh.value).value < ParseMemory(c.memory.value).value))
            && (c.cpu.Some? ==> match c.cpu.value
                                case Finite(x) => x > 0.0 case Infinite(positive) => positive case NaN => false)
            && (c.cpuShares.Some? ==> 2 <= c.cpuShares.value <= 262_144)
            && (c.pids.Some? ==> c.pids.value > 0)
    ensures r.Ok? ==> (r.value.None? <==> NothingSet(c))
    ensures r.Ok? && r.value.Some? ==>
      var out := r.value.value;
      && MemoryStated(c, out) && HighStated(c, out)
      && out.cpu == c.cpu && out.shares == c.cpuShares && out.pids == c.pids
  {
    hide MemoryStated, HighStated, ParseMemory, ParseSize;
    AcceptableInPlainTerms(c);
    if NothingSet(c) {
      return Ok(None);
    }
    var builder := Resources(None, None, None, None, None, None);
    var memory := MakeMemory(c, builder);
    if memory.Err? {
      return Err;
    }
    var high := MakeHigh(c, memory.value);
    if high.Err? {
      return Err;
    }
    builder := high.value;

    if c.cpu.Some? {
      if AtMostZero(c.cpu.value) || c.cpu.value.NaN? {
        return Err;
      }
      builder := builder.(cpu := c.cpu);
    }
    if c.cpuShares.Some? {
      if !(2 <= c.cpuShares.value <= 262_144) {
        return Err;
      }
      builder := builder.(shares := c.cpuShares);
    }
    if c.pids.Some? {
      if c.pids.value <= 0 {
        return Err;
      }
      builder := builder.(pids := c.pids);
    }
    StatedStays(c, high.value, builder);
    r := Ok(Some(builder));
  }

  lemma AcceptableInPlainTerms(c: Config)
    ensures Acceptable(c) <==>
            && (c.memory.Some? ==> ParseMemory(c.memory.value).Ok? && ParseMemory(c.memory.value).value > 0)
            && (c.swap.Some? ==>
                  && c.memory.Some? && ParseMemory(c.swap.value).Ok?
                  && ParseMemory(c.memory.value).value + ParseMemory(c.swap.value).value <= 9_223_372_036_854_775_807)
            && (c.memoryHigh.Some? ==>
                  && ParseMemory(c.memoryHigh.value).Ok? && ParseMemory(c.memoryHigh.value).value > 0
                  && (c.memory.Some? ==> ParseMemory(c.memoryHigh.value).value < ParseMemory(c.memory.value).value))
            && (c.cpu.Some? ==> match c.cpu.value
                                case Finite(x) => x > 0.0 case Infinite(positive) => positive case NaN => false)
            && (c.cpuShares.Some? ==> 2 <= c.cpuShares.value <= 262_144)
            && (c.pids.Some? ==> c.pids.value > 0)
  {
    hide ParseMemory;
  }

  lemma StatedStays(c: Config, before: Resources, after: Resources)
    requires MemoryStated(c, before) && HighStated(c, before)
    requires after == before.(cpu := after.cpu, shares := after.shares, pids := after.pids)
    ensures MemoryStated(c, after) && HighStated(c, after)
  {
  }

  predicate MemoryAcceptable(c: Config) {
    && (c.memory.Some? ==> ParseSize(c.memory.value).Ok?)
    && (c.swap.Some? ==>
          && c.memory.Some? && ParseMemory(c.swap.value).Ok?
          && MemoryOf(c).value + ParseMemory(c.swap.value).value <= I64_MAX)
  }

  method MakeMemory(c: Config, builder: Resources) returns (r: Result<Resources>)
    requires builder.limit.None? && builder.swapTotal.None?
    ensures r.Ok? <==> MemoryAcceptable(c)
    ensures r.Ok? ==> MemoryStated(c, r.value) && r.value.limit == MemoryOf(c)
    ensures r.Ok? ==> r.value == builder.(limit := r.value.limit, swapTotal := r.value.swapTotal)
  {
    hide Denotes, ParseMemory;
    if c.memory.None? {
      return if c.swap.None? then Ok(builder) else Err;
    }
    var size := ParseSize(c.memory.value);
    if size.Err? {
      return Err;
    }
    ParsedIsDenoted(c.memory.value);
    var limited := builder.(limit := Some(size.value));
    if c.swap.None? {
      return Ok(limited);
    }
    var swap := ParseMemory(c.swap.value);
    if swap.Err? || size.value + swap.value > I64_MAX {
      return Err;
    }
    ParsedIsDenoted(c.swap.value);
    r := Ok(limited.(swapTotal := Some(size.value + swap.value)));
  }

  predicate HighAcceptable(c: Config, limit: Option<int>) {
    c.memoryHigh.Some? ==>
      && ParseSize(c.memoryHigh.value).Ok?
      && (limit.Some? ==> ParseSize(c.memoryHigh.value).value < limit.value)
  }

  method MakeHigh(c: Config, builder: Resources) returns (r: Result<Resources>)
    requires builder.high.None?
    ensures r.Ok? <==> HighAcceptable(c, builder.limit)
    ensures r.Ok? ==> HighStated(c, r.value) && r.value == builder.(high := r.value.high)
    ensures r.Ok? && MemoryStated(c, builder) ==> MemoryStated(c, r.value)
  {
    hide Denotes, ParseMemory;
    if c.memoryHigh.None? {
      return Ok(builder);
    }
    var high := ParseSize(c.memoryHigh.value);
    if high.Err? || (builder.limit.Some? && high.value >= builder.limit.value) {
      return Err;
    }
    ParsedIsDenoted(c.memoryHigh.value);
    IntegersSurvive(high.value);
    r := Ok(builder.(high := Some(Decimal(high.value))));
  }

  lemma ParsedIsDenoted(value: string)
    ensures ParseMemory(value).Ok? ==>
              0 <= ParseMemory(value).value <= I64_MAX && Denotes(value, ParseMemory(value).value)
  {
    hide ParseMemory, Denotes;
    if ParseMemory(value).Ok? {
      ParseMemoryReadsWhatIsDenoted(value, ParseMemory(value).value);
    }
  }
}
