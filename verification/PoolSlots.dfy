/** Slot identifiers of internal/domain/pool.go: decimal printing into a byte buffer, and
    parsing of the human-facing form NM-1 and the compact forms NM1, TB and Shiro. */
module PoolSlots {
  import opened MatchModel

  datatype PoolSlot = PoolSlot(mod: Mod, index: int)

  const MAX_INT := 0x7fff_ffff_ffff_ffff
  const MIN_INT := -0x8000_0000_0000_0000

  const MOD_COUNT := 7

  /** The canonical mod order; Shiro and TB come last. */
  function ModAt(k: nat): Mod {
    if k == 0 then NM
    else if k == 1 then HD
    else if k == 2 then HR
    else if k == 3 then DT
    else if k == 4 then FM
    else if k == 5 then Shiro
    else if k == 6 then TB
    else OtherMod
  }

  function Rank(mod: Mod): (k: nat)
    ensures ModAt(k) == mod && (k < MOD_COUNT <==> !mod.OtherMod?)
    ensures forall i: nat | i < MOD_COUNT && ModAt(i) == mod :: i == k
  {
    match mod
    case NM => 0
    case HD => 1
    case HR => 2
    case DT => 3
    case FM => 4
    case Shiro => 5
    case TB => 6
    case OtherMod => 7
  }

  function ModText(mod: Mod): string {
    match mod
    case NM => "NM"
    case HD => "HD"
    case HR => "HR"
    case DT => "DT"
    case FM => "FM"
    case Shiro => "Shiro"
    case TB => "TB"
    case OtherMod => ""
  }

  function ModOf(text: string): Option<Mod> {
    if text == "NM" then Some(NM)
    else if text == "HD" then Some(HD)
    else if text == "HR" then Some(HR)
    else if text == "DT" then Some(DT)
    else if text == "FM" then Some(FM)
    else if text == "Shiro" then Some(Shiro)
    else if text == "TB" then Some(TB)
    else None
  }

  // ----- decimal texts

  predicate IsDigit(ch: char) { '0' <= ch <= '9' }

  function DigitOf(n: int): char
    requires 0 <= n < 10
  {
    ('0' as int + n) as char
  }

  function Decimal(n: nat): (text: string)
    ensures text != "" && forall i | 0 <= i < |text| :: IsDigit(text[i])
  {
    if n < 10 then [DigitOf(n)] else Decimal(n / 10) + [DigitOf(n % 10)]
  }

  /** The text itoa produces. The smallest integer has no positive counterpart, so its
      digits are missing. */
  function Itoa(n: int): string {
    if n == MIN_INT then "-" else if n < 0 then "-" + Decimal(-n) else Decimal(n)
  }

  function Power(k: nat): nat { if k == 0 then 1 else 10 * Power(k - 1) }

  lemma PowerOf19()
    ensures Power(19) == 10000000000000000000
  {
    assert Power(5) == 100000;
    assert Power(10) == 100000 * Power(5);
    assert Power(15) == 100000 * Power(10);
    assert Power(19) == 10000 * Power(15);
  }

  /** What a loop over the digits of a positive number prints, and nothing otherwise. */
  function Digits(n: int): string { if n > 0 then Decimal(n) else "" }

  lemma DigitStep(n: int, k: nat)
    requires 0 < n < Power(k)
    ensures k > 0 && n / 10 < Power(k - 1) && Digits(n) == Digits(n / 10) + [DigitOf(n % 10)]
  {}

  lemma ItoaByDigits(number: int)
    ensures number == 0 ==> Itoa(number) == "0"
    ensures number > 0 ==> Itoa(number) == Digits(number)
    ensures number < 0 ==> Itoa(number) == "-" + Digits(if number == MIN_INT then MIN_INT else -number)
    ensures Digits(0) == ""
  {}

  /** itoa fills a 20-byte buffer from its end (pool.go 115-135). */
  method PrintInt(number: int) returns (text: string)
    requires MIN_INT <= number <= MAX_INT
    ensures text == Itoa(number)
  {
    hide Power, Decimal, Digits, Itoa;
    ItoaByDigits(number);
    if number == 0 { return "0"; }
    var n := number;
    var buf := new char[20];
    var i := buf.Length;
    if number < 0 {
      // Negating the smallest 64-bit integer wraps around to itself.
      n := if n == MIN_INT then MIN_INT else -n;
    }
    ghost var digits := Digits(n);
    PowerOf19();
    while n > 0
      invariant 1 <= i <= 20 && n < Power(i - 1)
      invariant Digits(n) + buf[i..] == digits
    {
      DigitStep(n, i - 1);
      ghost var tail := buf[i..];
      i := i - 1;
      buf[i] := DigitOf(n % 10);
      assert buf[i..] == [buf[i]] + tail;
      n := n / 10;
    }
    DigitsOfNothing(n);
    if number < 0 {
      ghost var tail := buf[i..];
      i := i - 1;
      buf[i] := '-';
      assert buf[i..] == ['-'] + tail;
    }
    text := buf[i..];
  }

  lemma DigitsOfNothing(n: int)
    requires n <= 0
    ensures Digits(n) == ""
  {}

  // ----- parsing decimals

  predicate AllDigits(text: string) { forall i | 0 <= i < |text| :: IsDigit(text[i]) }

  function Number(text: string): nat
    requires AllDigits(text)
  {
    if text == "" then 0
    else 10 * Number(text[..|text| - 1]) + (text[|text| - 1] as int - '0' as int)
  }

  lemma {:induction false} NumberOfDecimal(n: nat)
    ensures Number(Decimal(n)) == n
  {
    var text := Decimal(n);
    if n >= 10 {
      NumberOfDecimal(n / 10);
      assert text[..|text| - 1] == Decimal(n / 10);
    } else {
      assert text[..0] == "";
    }
  }

  /** strconv.Atoi: a sign or none, then digits, within 64 bits. */
  function Atoi(text: string): Option<int> {
    var signed := text != "" && (text[0] == '+' || text[0] == '-');
    var digits := if signed then text[1..] else text;
    if digits == "" || !AllDigits(digits) then None
    else
      var n: int := if text[0] == '-' then -(Number(digits) as int) else Number(digits);
      if MIN_INT <= n <= MAX_INT then Some(n) else None
  }

  lemma AtoiOfDecimal(n: nat)
    requires n <= MAX_INT
    ensures Atoi(Decimal(n)) == Some(n) && '-' !in Decimal(n)
  {
    NumberOfDecimal(n);
    assert IsDigit(Decimal(n)[0]);
  }

  // ----- slot texts (pool.go 15-17, 70-113)

  function SlotText(slot: PoolSlot): string { ModText(slot.mod) + "-" + Itoa(slot.index) }

  /** Where strings.Cut splits; the length of the text if it has no dash. */
  function FirstDash(text: string): (k: nat)
    ensures k <= |text| && (forall i | 0 <= i < k :: text[i] != '-') && (k < |text| ==> text[k] == '-')
  {
    if text == "" || text[0] == '-' then 0 else 1 + FirstDash(text[1..])
  }

  predicate HasPrefix(text: string, prefix: string) { prefix <= text && |prefix| < |text| }

  /** The first of NM..FM that starts the text with something behind it. */
  function CompactMod(text: string, from: nat): Option<Mod>
    requires from <= 5
    decreases 5 - from
  {
    if from == 5 then None
    else if HasPrefix(text, ModText(ModAt(from))) then Some(ModAt(from))
    else CompactMod(text, from + 1)
  }

  function ParseParts(modText: string, indexText: string): Option<PoolSlot> {
    if modText == "" || indexText == "" || '-' in indexText || ModOf(modText).None? then None
    else
      var index := Atoi(indexText);
      if index.None? || index.value < 1 then None else Some(PoolSlot(ModOf(modText).value, index.value))
  }

  function Parse(text: string): Option<PoolSlot> {
    var dash := FirstDash(text);
    if dash < |text| then ParseParts(text[..dash], text[dash + 1..])
    else if CompactMod(text, 0).Some? then
      var prefix := ModText(CompactMod(text, 0).value);
      if |prefix| <= |text| then ParseParts(prefix, text[|prefix|..]) else None
    else if text == "TB" then Some(PoolSlot(TB, 1))
    else if text == "Shiro" then Some(PoolSlot(Shiro, 1))
    else None
  }

  /** ParsePoolSlot, with its scan over the compact prefixes. */
  method ParsePoolSlot(text: string) returns (slot: Option<PoolSlot>)
    ensures slot == Parse(text)
  {
    var dash := FirstDash(text);
    var modText, indexText := "", "";
    var found := dash < |text|;
    if found {
      modText, indexText := text[..dash], text[dash + 1..];
    } else {
      var k := 0;
      while k < 5 && !found
        invariant 0 <= k <= 5
        invariant !found ==> CompactMod(text, 0) == CompactMod(text, k)
        invariant found ==> CompactMod(text, 0).Some? && modText == ModText(CompactMod(text, 0).value)
        invariant found ==> |modText| <= |text| && indexText == text[|modText|..]
        decreases 5 - k, !found
      {
        var prefix := ModText(ModAt(k));
        if HasPrefix(text, prefix) {
          modText, indexText, found := prefix, text[|prefix|..], true;
        } else {
          k := k + 1;
        }
      }
      if !found {
        if text == "TB" { return Some(PoolSlot(TB, 1)); }
        if text == "Shiro" { return Some(PoolSlot(Shiro, 1)); }
        return None;
      }
    }
    if modText == "" || indexText == "" || '-' in indexText { return None; }
    var mod := ModOf(modText);
    if mod.None? { return None; }
    var index := Atoi(indexText);
    if index.None? || index.value < 1 { return None; }
    return Some(PoolSlot(mod.value, index.value));
  }

  predicate ValidSlot(slot: PoolSlot) { !slot.mod.OtherMod? && 1 <= slot.index <= MAX_INT }

  lemma KnownMods(mod: Mod)
    requires !mod.OtherMod?
    ensures ModOf(ModText(mod)) == Some(mod) && '-' !in ModText(mod) && ModText(mod) != ""
  {}

  lemma {:induction false} CutAtDash(left: string, right: string)
    requires '-' !in left
    ensures FirstDash(left + "-" + right) == |left|
  {
    var text := left + "-" + right;
    if left != "" {
      CutAtDash(left[1..], right);
      assert text[1..] == left[1..] + "-" + right;
      assert text[0] == left[0];
    }
  }

  lemma {:induction false} NoDash(text: string)
    requires '-' !in text
    ensures FirstDash(text) == |text|
  {}

  /** Parsing undoes printing, for every known mod and every index. */
  lemma ParseUndoesPrint(slot: PoolSlot)
    requires ValidSlot(slot)
    ensures Parse(SlotText(slot)) == Some(slot)
  {
    hide Atoi, Decimal, CompactMod;
    KnownMods(slot.mod);
    AtoiOfDecimal(slot.index);
    var text, mod := SlotText(slot), ModText(slot.mod);
    assert text == mod + "-" + Decimal(slot.index);
    assert text[|mod|] == '-' && text[..|mod|] == mod && text[|mod| + 1..] == Decimal(slot.index);
    CutAtDash(mod, Decimal(slot.index));
  }

  /** The engine's compact texts parse to the same slots, and only slots come out. */
  lemma CompactTextsParse(slot: PoolSlot)
    requires ValidSlot(slot) && slot.mod != Shiro && slot.mod != TB
    ensures Parse(ModText(slot.mod) + Itoa(slot.index)) == Some(slot)
  {
    hide Atoi, Decimal;
    KnownMods(slot.mod);
    AtoiOfDecimal(slot.index);
    var text, mod := ModText(slot.mod) + Decimal(slot.index), ModText(slot.mod);
    assert text[|mod|..] == Decimal(slot.index) && text[0] == mod[0] && text[1] == mod[1];
    NoDash(text);
    var two := text[..2];
    assert two == mod;
    forall other: Mod | other in {NM, HD, HR, DT, FM} && other != slot.mod ensures !HasPrefix(text, ModText(other)) {
      var prefix := ModText(other);
      assert prefix <= text ==> two == prefix;
    }
  }

  /** The notations of each mod, letter by letter. */
  lemma TextsReadAsWritten(index: nat)
    requires 1 <= index <= MAX_INT
    ensures Parse("NM-" + Decimal(index)) == Some(PoolSlot(NM, index)) == Parse("NM" + Decimal(index))
    ensures Parse("HD-" + Decimal(index)) == Some(PoolSlot(HD, index)) == Parse("HD" + Decimal(index))
    ensures Parse("HR-" + Decimal(index)) == Some(PoolSlot(HR, index)) == Parse("HR" + Decimal(index))
    ensures Parse("DT-" + Decimal(index)) == Some(PoolSlot(DT, index)) == Parse("DT" + Decimal(index))
    ensures Parse("FM-" + Decimal(index)) == Some(PoolSlot(FM, index)) == Parse("FM" + Decimal(index))
    ensures Parse("Shiro-" + Decimal(index)) == Some(PoolSlot(Shiro, index)) && Parse("Shiro") == Some(PoolSlot(Shiro, 1))
    ensures Parse("TB-" + Decimal(index)) == Some(PoolSlot(TB, index)) && Parse("TB") == Some(PoolSlot(TB, 1))
  {
    hide Parse, Decimal;
    forall mod: Mod | mod in {NM, HD, HR, DT, FM, Shiro, TB} ensures Parse(ModText(mod) + "-" + Decimal(index)) == Some(PoolSlot(mod, index)) {
      ParseUndoesPrint(PoolSlot(mod, index));
    }
    forall mod: Mod | mod in {NM, HD, HR, DT, FM} ensures Parse(ModText(mod) + Decimal(index)) == Some(PoolSlot(mod, index)) {
      CompactTextsParse(PoolSlot(mod, index));
    }
    NamesAlone();
    assert "NM" + "-" == "NM-" && "HD" + "-" == "HD-" && "HR" + "-" == "HR-" && "DT" + "-" == "DT-" && "FM" + "-" == "FM-";
    assert "Shiro" + "-" == "Shiro-" && "TB" + "-" == "TB-";
    assert ModText(NM) == "NM" && ModText(HD) == "HD" && ModText(HR) == "HR" && ModText(DT) == "DT" && ModText(FM) == "FM";
    assert ModText(Shiro) == "Shiro" && ModText(TB) == "TB";
  }

  lemma NamesAlone()
    ensures Parse("TB") == Some(PoolSlot(TB, 1)) && Parse("Shiro") == Some(PoolSlot(Shiro, 1))
  {
    NoDash("TB");
    NoDash("Shiro");
    NoCompactMod("TB");
    NoCompactMod("Shiro");
  }

  lemma NoCompactMod(text: string)
    requires text == "TB" || text == "Shiro"
    ensures CompactMod(text, 0).None?
  {
    forall k: nat | k < 5 ensures !HasPrefix(text, ModText(ModAt(k))) {
      var prefix := ModText(ModAt(k));
      assert prefix <= text ==> prefix[0] == text[0];
    }
    assert CompactMod(text, 5) == CompactMod(text, 4) == CompactMod(text, 3) == CompactMod(text, 2);
    assert CompactMod(text, 2) == CompactMod(text, 1) == CompactMod(text, 0);
  }

  lemma Shifted(a: nat, b: nat, c: nat)
    ensures 10 * (a * b + c) == a * (10 * b) + 10 * c
  {}

  /** Decimal texts are positional, the last digit counting one. */
  lemma {:induction false} NumbersArePositional(x: string, y: string)
    requires AllDigits(x) && AllDigits(y)
    ensures AllDigits(x + y) && Number(x + y) == Number(x) * Power(|y|) + Number(y)
  {
    if y == [] {
      assert x + y == x;
    } else {
      var front, last := y[..|y| - 1], y[|y| - 1];
      NumbersArePositional(x, front);
      Shifted(Number(x), Power(|front|), Number(front));
      assert (x + y)[..|x + y| - 1] == x + front && (x + y)[|x + y| - 1] == last && IsDigit(last);
      var digit := last as int - '0' as int;
      assert Number(x + y) == 10 * Number(x + front) + digit;
      assert Number(y) == 10 * Number(front) + digit;
    }
  }

  lemma ParsedSlotsAreValid(text: string)
    ensures Parse(text).Some? ==> ValidSlot(Parse(text).value)
  {
    hide Number, FirstDash, CompactMod;
  }

  /** The factory's Shiro id names no slot. */
  lemma SyntheticShiroDoesNotParse()
    ensures Parse("SHIRO") == None
  {
    assert FirstDash("SHIRO") == 5;
    assert forall k | 0 <= k < 5 :: !HasPrefix("SHIRO", ModText(ModAt(k)));
    assert CompactMod("SHIRO", 5) == CompactMod("SHIRO", 4) == CompactMod("SHIRO", 3) == CompactMod("SHIRO", 2);
    assert CompactMod("SHIRO", 2) == CompactMod("SHIRO", 1) == CompactMod("SHIRO", 0);
  }
}
