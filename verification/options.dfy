/** Decoding of the frontend's core options: `vbanext3d_parallax_offset`
    (`get_parallax_code`), `vbanext_frameskip` (`get_frameskip_code`) and
    `vbanext_bios` (the BIOS choice in `gba_init`).

    An option value is `None` when the environment query fails or leaves the
    value NULL, and otherwise the characters of the C string it returns. */
module Options {
  import opened Common

  /** The parallax offsets the option accepts. */
  predicate IsParallax(n: int) {
    -5 <= n <= 5
  }

  /** `get_parallax_code`: "-5" .. "5" are read as that integer, anything else as 0. */
  function ParallaxCode(value: Option<string>): (offset: int)
    ensures IsParallax(offset)
    ensures offset != 0 ==> value == Some(IntText(offset))
    ensures forall n :: IsParallax(n) && value == Some(IntText(n)) ==> offset == n
  {
    SmallIntTexts();
    match value
    case None => 0
    case Some(v) =>
      if v == "-5" then -5
      else if v == "-4" then -4
      else if v == "-3" then -3
      else if v == "-2" then -2
      else if v == "-1" then -1
      else if v == "0" then 0
      else if v == "1" then 1
      else if v == "2" then 2
      else if v == "3" then 3
      else if v == "4" then 4
      else if v == "5" then 5
      else 0
  }

  /** The `%d` spellings of -5 .. 5. */
  lemma SmallIntTexts()
    ensures forall n :: IsParallax(n) ==> IntText(n) == if n < 0 then ['-', DigitChar(-n)] else [DigitChar(n)]
    ensures IntText(-5) == "-5" && IntText(-4) == "-4" && IntText(-3) == "-3" && IntText(-2) == "-2"
    ensures IntText(-1) == "-1" && IntText(0) == "0" && IntText(1) == "1" && IntText(2) == "2"
    ensures IntText(3) == "3" && IntText(4) == "4" && IntText(5) == "5"
  {
  }

  /** Printing an offset and reading it back gives the offset. */
  lemma ParallaxRoundTrip(n: int)
    requires IsParallax(n)
    ensures ParallaxCode(Some(IntText(n))) == n
  {
  }

  /** The frameskip codes the option can produce besides 0 (no skipping). */
  predicate IsFrameskip(code: int) {
    code in {1, 2, 3, 4, 0x12, 0x13}
  }

  /** The option text for a frameskip code: "1/3", "1/2" or a digit. */
  function FrameskipText(code: int): string
    requires IsFrameskip(code)
  {
    if code == 0x13 then "1/3" else if code == 0x12 then "1/2" else IntText(code)
  }

  /** `get_frameskip_code`: "1/3" and "1/2" become 0x13 and 0x12, "1" .. "4" their value,
      anything else 0. */
  function FrameskipCode(value: Option<string>): (code: int)
    ensures code == 0 || IsFrameskip(code)
    ensures code != 0 ==> value == Some(FrameskipText(code))
    ensures forall c :: IsFrameskip(c) && value == Some(FrameskipText(c)) ==> code == c
  {
    SmallIntTexts();
    match value
    case None => 0
    case Some(v) =>
      if v == "1/3" then 0x13
      else if v == "1/2" then 0x12
      else if v == "1" then 1
      else if v == "2" then 2
      else if v == "3" then 3
      else if v == "4" then 4
      else 0
  }

  lemma FrameskipRoundTrip(code: int)
    requires IsFrameskip(code)
    ensures FrameskipCode(Some(FrameskipText(code))) == code
  {
  }

  /** The two arguments `gba_init` passes to `CPUInit`: the BIOS file (NULL is `None`)
      and whether to use it. */
  datatype CpuInitArgs = CpuInitArgs(biosFile: Option<string>, useBios: bool)

  /** `vbanext_bios`: "disabled" and "enabled" set the choice; any other value, or none,
      leaves it at its initial "no". */
  function BiosOption(value: Option<string>): bool {
    var useBios := false;
    match value
    case None => useBios
    case Some(v) => if v == "disabled" then false else if v == "enabled" then true else useBios
  }

  /** The `CPUInit` call of `gba_init`. `hleBios` is the `HAVE_HLE_BIOS` build flag and
      `biosPath` the C string in `filename_bios` (empty when no system directory was found). */
  function CpuInitFor(hleBios: bool, value: Option<string>, biosPath: string): (args: CpuInitArgs)
    ensures args.biosFile.Some? <==> args.useBios
    ensures args.useBios <==> hleBios && value == Some("enabled") && biosPath != ""
    ensures args.biosFile.Some? ==> args.biosFile.value == biosPath
  {
    if hleBios && BiosOption(value) && |biosPath| > 0 then CpuInitArgs(Some(biosPath), true)
    else CpuInitArgs(None, false)
  }
}
