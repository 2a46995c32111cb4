/** Per-title hardware configuration: `load_image_preferences` and the
    configuration part of `gba_init`. The emulation core's setters and
    initialisers are foreign code; the model records the calls made to them. */
module Resolver {
  import opened Common
  import opened Profiles
  import opened Options

  /** The core globals the resolver sets: `cpuSaveType`, `flashSize`,
      `enableRtc` and `mirroringEnable`. */
  datatype Config = Config(saveType: int, flashSize: int, rtc: bool, mirroring: bool)

  /** What `gba_init` writes before the lookup: no save type, 64 KiB flash, no RTC,
      no mirroring. */
  const Defaults: Config := Config(0, 0x10000, false, false)

  /** Offset of the 4-byte game code in the cartridge header. */
  const TitleIdOffset: nat := 0xAC

  /** Capacity of the scratch buffer `gba_init` serialises into to learn the state size. */
  const StateProbeCapacity: nat := 2000000

  /** The compile-time switches `HAVE_HLE_BIOS` and `USE_FRAME_SKIP`. */
  datatype Build = Build(hleBios: bool, frameSkip: bool)

  /** The core-option values read during `gba_init`. */
  datatype Variables = Variables(bios: Option<string>, parallax: Option<string>, frameskip: Option<string>)

  /** A call into the emulation core, in the order `gba_init` makes them. */
  datatype CoreCall =
    | FlashSetSize(size: int)
    | RtcEnable(on: bool)
    | DoMirroring(on: bool)
    | CpuInit(args: CpuInitArgs)
    | CpuReset
    | CaptureStateSize(capacity: nat)
    | SetParallax(offset: int)
    | SetFrameskip(code: int)

  /** The game code as `strcmp` sees it: the four header bytes copied into a
      5-byte buffer whose last byte is NUL, up to the first NUL. `rom` is the core's
      ROM buffer, which always extends past the header, so the read is in bounds. */
  function TitleId(rom: seq<byte>): (id: string)
    requires |rom| >= TitleIdOffset + 4
    ensures |id| <= 4 && NUL !in id
    ensures forall i :: 0 <= i < |id| ==> id[i] == ByteChar(rom[TitleIdOffset + i])
    ensures |id| < 4 ==> rom[TitleIdOffset + |id|] == 0
    ensures id == [] <==> rom[TitleIdOffset] == 0
  {
    var buffer := [ByteChar(rom[0xAC]), ByteChar(rom[0xAD]), ByteChar(rom[0xAE]), ByteChar(rom[0xAF]), NUL];
    var id := CString(buffer);
    assert buffer[4] == NUL;
    id
  }

  /** The fields a found row contributes: a stored flash size of 0 means 64 KiB. */
  function FromRow(p: Profile): Config {
    Config(p.saveType, if p.flashSize != 0 then p.flashSize else 65536, p.rtcEnabled != 0, p.mirroringEnabled != 0)
  }

  /** `load_image_preferences`: the first slot whose id equals the game code supplies
      every field; with no such slot the incoming configuration is kept. */
  function LoadImagePreferences(rom: seq<byte>, c: Config): Config
    requires |rom| >= TitleIdOffset + 4
  {
    match Lookup(TitleId(rom))
    case None => c
    case Some(k) => FromRow(SlotAt(k))
  }

  /** Resolution in terms of the table itself: a game code found in no slot keeps the
      incoming configuration; otherwise the first slot carrying it supplies the save type,
      the flash size (0 read as 64 KiB), the RTC flag and the mirroring flag. */
  lemma ResolvesFirstMatchingSlot(rom: seq<byte>, c: Config, k: nat)
    requires |rom| >= TitleIdOffset + 4
    ensures (forall j :: 0 <= j < TableSlots ==> SlotAt(j).romId != TitleId(rom)) ==>
              LoadImagePreferences(rom, c) == c
    ensures k < TableSlots && SlotAt(k).romId == TitleId(rom)
            && (forall j :: 0 <= j < k ==> SlotAt(j).romId != TitleId(rom)) ==>
              var r := LoadImagePreferences(rom, c);
              && r.saveType == SlotAt(k).saveType
              && r.flashSize == (if SlotAt(k).flashSize == 0 then 65536 else SlotAt(k).flashSize)
              && r.rtc == (SlotAt(k).rtcEnabled != 0)
              && r.mirroring == (SlotAt(k).mirroringEnabled != 0)
  {
    if k < TableSlots && SlotAt(k).romId == TitleId(rom) && (forall j :: 0 <= j < k ==> SlotAt(j).romId != TitleId(rom)) {
      FirstMatchIsFound(TitleId(rom), k);
    }
  }

  /** Whatever the game code, the resolved flash size is 64 KiB or 128 KiB, because every
      slot stores 0, 64 KiB or 128 KiB and the defaults say 64 KiB. */
  lemma ResolvedFlashSize(rom: seq<byte>)
    requires |rom| >= TitleIdOffset + 4
    ensures LoadImagePreferences(rom, Defaults).flashSize in {0x10000, 0x20000}
  {
    var id := TitleId(rom);
    match Lookup(id)
    case None =>
    case Some(k) => SlotFlashSizes(k);
  }

  /** The outcome of `gba_init`: the configuration and the core calls in order. */
  datatype InitResult = InitResult(config: Config, calls: seq<CoreCall>)

  /** The setter calls that hand a resolved configuration to the core: the flash size
      when it is one of the two flash geometries, the RTC only when it is on, and the
      mirroring flag always. */
  function ApplyConfig(c: Config): seq<CoreCall> {
    (if c.flashSize == 0x10000 || c.flashSize == 0x20000 then [FlashSetSize(c.flashSize)] else [])
    + (if c.rtc then [RtcEnable(c.rtc)] else [])
    + [DoMirroring(c.mirroring)]
  }

  /** The rest of `gba_init` after the setters: BIOS choice, reset, the one-off state-size
      capture, then the option-driven parallax and (when built in) frameskip. */
  function StartCore(build: Build, vars: Variables, biosPath: string): seq<CoreCall> {
    [CpuInit(CpuInitFor(build.hleBios, vars.bios, biosPath)), CpuReset, CaptureStateSize(StateProbeCapacity),
     SetParallax(ParallaxCode(vars.parallax))]
    + (if build.frameSkip then [SetFrameskip(FrameskipCode(vars.frameskip))] else [])
  }

  /** `gba_init` without its sound calls. The flash setter always runs, and runs first,
      because every resolved flash size is one of the two flash geometries. */
  function GbaInit(build: Build, rom: seq<byte>, vars: Variables, biosPath: string): (r: InitResult)
    requires |rom| >= TitleIdOffset + 4
    ensures r.config == LoadImagePreferences(rom, Defaults)
    ensures |r.calls| >= 1 && r.calls[0] == FlashSetSize(r.config.flashSize)
    ensures r.config.flashSize in {0x10000, 0x20000}
  {
    var c := LoadImagePreferences(rom, Defaults);
    ResolvedFlashSize(rom);
    InitResult(c, ApplyConfig(c) + StartCore(build, vars, biosPath))
  }

  /** The setters of `gba_init` see exactly the resolved values: `rtcEnable(true)` only
      when the RTC resolved on (never `rtcEnable(false)`), exactly one `doMirroring`, with
      the resolved flag, and the flash setter only as the first call. */
  lemma AppliesConfig(build: Build, rom: seq<byte>, vars: Variables, biosPath: string)
    requires |rom| >= TitleIdOffset + 4
    ensures var r := GbaInit(build, rom, vars, biosPath);
            && (RtcEnable(true) in r.calls <==> r.config.rtc)
            && RtcEnable(false) !in r.calls
            && DoMirroring(r.config.mirroring) in r.calls
            && DoMirroring(!r.config.mirroring) !in r.calls
            && (forall i, j :: 0 <= i < j < |r.calls| ==> !(r.calls[i].DoMirroring? && r.calls[j].DoMirroring?))
            && forall i :: 0 <= i < |r.calls| && r.calls[i].FlashSetSize? ==> i == 0
  {
    var r := GbaInit(build, rom, vars, biosPath);
    var c := r.config;
    var applied := ApplyConfig(c);
    var started := StartCore(build, vars, biosPath);
    var calls := r.calls;
    assert calls == applied + started;
    assert forall i :: 0 <= i < |started| ==> !started[i].RtcEnable? && !started[i].DoMirroring? && !started[i].FlashSetSize?;
    forall i | 0 <= i < |calls|
      ensures calls[i].RtcEnable? ==> calls[i] == RtcEnable(true) && c.rtc
      ensures calls[i].DoMirroring? ==> calls[i] == DoMirroring(c.mirroring) && i == |applied| - 1
      ensures calls[i].FlashSetSize? ==> i == 0
    {
      if i >= |applied| { assert calls[i] == started[i - |applied|]; }
    }
    if c.rtc { assert calls[1] == RtcEnable(true); }
    assert calls[|applied| - 1] == DoMirroring(c.mirroring);
  }

  /** `gba_init` calls `CPUInit` with the BIOS path and `true` exactly when the HLE BIOS is
      built in, the option says "enabled" and a BIOS path is known; otherwise with NULL
      and `false`. */
  lemma ChoosesBios(build: Build, rom: seq<byte>, vars: Variables, biosPath: string)
    requires |rom| >= TitleIdOffset + 4
    ensures var calls := GbaInit(build, rom, vars, biosPath).calls;
            && (CpuInit(CpuInitArgs(Some(biosPath), true)) in calls <==>
                  build.hleBios && vars.bios == Some("enabled") && biosPath != "")
            && (CpuInit(CpuInitArgs(None, false)) in calls <==>
                  !(build.hleBios && vars.bios == Some("enabled") && biosPath != ""))
  {
    var r := GbaInit(build, rom, vars, biosPath);
    var applied := ApplyConfig(r.config);
    var started := StartCore(build, vars, biosPath);
    var calls := r.calls;
    assert calls == applied + started;
    var args := CpuInitFor(build.hleBios, vars.bios, biosPath);
    forall i | 0 <= i < |calls| && calls[i].CpuInit?
      ensures calls[i] == CpuInit(args)
    {
      if i >= |applied| { assert calls[i] == started[i - |applied|]; }
    }
    assert calls[|applied|] == CpuInit(args);
  }

  /** `gba_init` reads the options: the parallax offset always, the frameskip code only in
      a frameskip build. */
  lemma ReadsOptions(build: Build, rom: seq<byte>, vars: Variables, biosPath: string)
    requires |rom| >= TitleIdOffset + 4
    ensures var calls := GbaInit(build, rom, vars, biosPath).calls;
            && SetParallax(ParallaxCode(vars.parallax)) in calls
            && ((exists i :: 0 <= i < |calls| && calls[i].SetFrameskip?) <==> build.frameSkip)
            && (build.frameSkip ==> SetFrameskip(FrameskipCode(vars.frameskip)) in calls)
  {
    var r := GbaInit(build, rom, vars, biosPath);
    var applied := ApplyConfig(r.config);
    var started := StartCore(build, vars, biosPath);
    var calls := r.calls;
    assert calls == applied + started;
    assert calls[|applied| + 3] == SetParallax(ParallaxCode(vars.parallax));
    if build.frameSkip {
      assert calls[|calls| - 1].SetFrameskip?;
    } else {
      forall i | 0 <= i < |calls|
        ensures !calls[i].SetFrameskip?
      {
        if i >= |applied| { assert calls[i] == started[i - |applied|]; }
      }
    }
  }

  /** A title that is not in the table keeps the defaults; with no options and no BIOS
      this is the whole call sequence. */
  lemma UnlistedTitleKeepsDefaults(rom: seq<byte>)
    requires |rom| >= TitleIdOffset + 4
    requires forall j :: 0 <= j < TableSlots ==> SlotAt(j).romId != TitleId(rom)
    ensures GbaInit(Build(false, false), rom, Variables(None, None, None), "").config == Defaults
    ensures GbaInit(Build(false, false), rom, Variables(None, None, None), "").calls ==
              [FlashSetSize(0x10000), DoMirroring(false), CpuInit(CpuInitArgs(None, false)), CpuReset,
               CaptureStateSize(StateProbeCapacity), SetParallax(0)]
  {
  }

  /** Header bytes 'A' 'X' 'V' 'E' read as the game code "AXVE". */
  lemma RubyTitleId(rom: seq<byte>)
    requires |rom| >= TitleIdOffset + 4
    requires rom[0xAC..0xB0] == ['A' as byte, 'X' as byte, 'V' as byte, 'E' as byte]
    ensures TitleId(rom) == "AXVE"
  {
    assert rom[0xAC] == 'A' as byte && rom[0xAD] == 'X' as byte && rom[0xAE] == 'V' as byte && rom[0xAF] == 'E' as byte;
    var id := TitleId(rom);
    assert |id| == 4;
    assert id[0] == 'A' && id[1] == 'X' && id[2] == 'V' && id[3] == 'E';
  }

  /** A Pokemon Ruby (USA, Europe) cartridge gets 128 KiB flash and the RTC. */
  lemma RubyGetsRtcAndLargeFlash(rom: seq<byte>)
    requires |rom| >= TitleIdOffset + 4
    requires rom[0xAC..0xB0] == ['A' as byte, 'X' as byte, 'V' as byte, 'E' as byte]
    ensures LoadImagePreferences(rom, Defaults) == Config(0, 0x20000, true, false)
    ensures RtcEnable(true) in GbaInit(Build(false, false), rom, Variables(None, None, None), "").calls
  {
    RubyTitleId(rom);
    RubyFoundAt77(TitleId(rom));
    AppliesConfig(Build(false, false), rom, Variables(None, None, None), "");
  }

  /** A header whose first game-code byte is NUL reads as the empty id, which matches the
      first zero-filled slot; that slot's values are the defaults, so nothing changes. */
  lemma NulGameCodeKeepsDefaults(rom: seq<byte>)
    requires |rom| >= TitleIdOffset + 4
    requires rom[TitleIdOffset] == 0
    ensures TitleId(rom) == ""
    ensures Lookup(TitleId(rom)) == Some(|Rows|)
    ensures LoadImagePreferences(rom, Defaults) == Defaults
  {
    var id := TitleId(rom);
    EmptyIdMatchesPadding(id);
  }
}
