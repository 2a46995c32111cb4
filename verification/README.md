# VBA-Next 3D libretro front end: a Dafny model

This project models the logic of the libretro front end of VBA-Next 3D, a Game Boy Advance emulator
(`libretro/libretro.cpp`). That logic sits between the frontend and the emulation core. It covers:

- **Save-RAM geometry detection** (`scan_area`, `adjust_save_ram`, `retro_get_memory_size`).
  Provided some byte of the 0x22000-byte save buffer is written (not 0xFF) and some geometry fits,
  the size becomes the smallest of 512, 0x2000, 0x10000 and 0x20000 bytes beyond which everything
  is still erased; otherwise the size is kept. The buffer is then bound to the EEPROM slot, the
  flash slot, or neither, according to that size.
- **The per-game override table** (`gbaover`) and `load_image_preferences`.
  The four-byte game code at ROM offset 0xAC is looked up with `strcmp`, first match wins, in a
  256-slot table. That table has 106 listed rows and zero-filled padding. A match overrides the
  save type, flash size, RTC and mirroring defaults.
- **`gba_init`'s configuration part.** The defaults, the resolution, the `flashSetSize` /
  `rtcEnable` / `doMirroring` calls, the BIOS choice for `CPUInit`, and the option-driven
  `SetParallax` and `SetFrameskip` (via `get_parallax_code` and `get_frameskip_code`).
- **`retro_cheat_set`.** Hex digits accumulate, upper-cased. A separator seen with fewer than 12
  digits is skipped, so the digits on either side join. A separator (or the terminating NUL) seen
  with 12 or more digits flushes them: 12 make a CodeBreaker code `XXXXXXXX YYYY`, 16 a GameShark
  Advance code, and any other length is reported invalid. A run still shorter than 12 at the
  terminating NUL is dropped silently. The functional
  decoder (`Cheats.Run`) is the reference. `Cheats.CheatSetBuffer` follows the C loop over a
  scratch buffer and is proved equal to it.
- **`systemDrawScreen`.** The two 256×160 eye images are copied side by side into the 512-pixel-pitch
  output buffer that is shown as a 480×160 frame.

Modules, one per file:

| module | file |
|---|---|
| `Common` | `common.dfy` |
| `SaveRam` | `save_ram.dfy` |
| `Profiles` | `profiles.dfy` |
| `Options` | `options.dfy` |
| `Resolver` | `resolver.dfy` |
| `Cheats` | `cheats.dfy` |
| `Screen` | `screen.dfy` |

Inputs the C code gets from its environment are parameters of the model:

- the ROM bytes. `rom` is the core's ROM buffer, which always extends past the header, so the four-byte read at 0xAC (lines 347-350, no length check) is in bounds; the model states this as a precondition;
- the values of the `vbanext_bios`, `vbanext3d_parallax_offset` and `vbanext_frameskip` options (`Option<string>`, `None` when the frontend has none);
- the BIOS path;
- whether a log interface exists;
- the build switches `HAVE_HLE_BIOS` and `USE_FRAME_SKIP` (`Resolver.Build`).

Calls into the emulation core are recorded as a sequence of `Resolver.CoreCall` values, in order.

`flashSetSize` runs whenever the resolved flash size is 0x10000 or 0x20000 (lines 448-449),
whatever the save type. For this table that is always the case (`Resolver.ResolvedFlashSize`).
`retro_unserialize` (lines 595-598) passes the size to `CPUReadState` without checking it.

## Model

| member | source | states |
|---|---|---|
| SaveRam.ScanArea | libretro/libretro.cpp:61-68 | returns true exactly when some byte of the window differs from the erased value 0xFF |
| SaveRam.DetectSize | libretro/libretro.cpp:70-102 | if the buffer holds a non-0xFF byte and some geometry has an erased tail, the size is the first geometry in the order 512, 0x2000, 0x10000, 0x20000 whose tail is erased (every earlier one has a written tail). Otherwise the size is unchanged |
| SaveRam.AdjustSaveRam | libretro/libretro.cpp:70-107 | the four chained scan_area tests compute exactly the detected size, and the buffer is bound to the slot for that size |
| SaveRam.SlotFollowsContents | libretro/libretro.cpp:104-107 | written data confined below 0x2000 gives the EEPROM slot. Data reaching 0x2000 but nothing beyond 0x20000 gives the flash slot. An all-erased buffer, or data in the last 0x2000 bytes, keeps the slot of the previous size |
| SaveRam.WrittenAtZeroAndSixHundred | libretro/libretro.cpp:72-85 | a buffer written only at bytes 0 and 600 fails the 512-byte test and is detected as 0x2000-byte EEPROM |
| SaveRam.RetroInitKeepsWholeBuffer | libretro/libretro.cpp:186-190 | after the 0xFF memset in retro_init, detection keeps the whole-buffer size and binds no slot |
| SaveRam.ReportedSaveSize | libretro/libretro.cpp:49-52 | the size reported for RETRO_MEMORY_SAVE_RAM is exactly the detected size: the first geometry with an erased tail when something is written and some tail is erased, with a save chip bound to it, and the previous size otherwise |
| Profiles.FindFrom | libretro/libretro.cpp:355-365 | the search returns the first slot at or after the start whose id equals the game code, and None exactly when no such slot exists |
| Profiles.RowsWellFormed | libretro/libretro.cpp:234-342 | the table has 106 rows. Each has a four-character NUL-free id, a flash size of 0, 65536 or 131072, a save type 0..5 and 0/1 flags |
| Profiles.FirstMatchIsFound | libretro/libretro.cpp:355-365 | a slot whose id matches, with no earlier match, is the slot the lookup returns |
| Profiles.DuplicateResolvesToFirst | libretro/libretro.cpp:273-274 | the id FTBJ listed twice resolves to its first row (slot 37), so the second row can never apply |
| Profiles.RubyFoundAt77 | libretro/libretro.cpp:313 | the id AXVE resolves to slot 77, which holds a 128 KiB flash with RTC |
| Profiles.IdsAreCaseSensitive | libretro/libretro.cpp:329 | the lower-case id AR8e is found (slot 93), while AR8E matches no slot, because strcmp is case-sensitive |
| Profiles.EmptyIdMatchesPadding | libretro/libretro.cpp:234 | an empty game code matches the first zero-filled padding slot (106) |
| Profiles.SlotFlashSizes | libretro/libretro.cpp:234-342 | every one of the 256 slots carries a flash size of 0, 65536 or 131072 |
| Options.ParallaxCode | libretro/libretro.cpp:394-416 | the result is an offset in -5..5. A nonzero result is the offset whose decimal text the option holds. Every in-range decimal text yields its own offset |
| Options.ParallaxRoundTrip | libretro/libretro.cpp:401-411 | the option text of each offset in -5..5 reads back as that offset |
| Options.FrameskipCode | libretro/libretro.cpp:419-436 | the result is 0 or one of the codes 1, 2, 3, 4, 0x12 ("1/2") and 0x13 ("1/3"). A nonzero result is the code whose text the option holds, and each of those texts yields its own code |
| Options.FrameskipRoundTrip | libretro/libretro.cpp:424-433 | the option text of each frameskip code reads back as that code |
| Options.CpuInitFor | libretro/libretro.cpp:458-480 | CPUInit gets the BIOS file exactly when the HLE-BIOS build has the option set to "enabled" and a non-empty BIOS path, and the flag agrees with the file argument |
| Common.IntTextRoundTrip | libretro/libretro.cpp:621 | the `%d` text of every integer reads back as that integer |
| Resolver.TitleId | libretro/libretro.cpp:346-351 | the game code is the header bytes from 0xAC up to the first NUL, at most four, and is empty exactly when byte 0xAC is 0 |
| Resolver.ResolvesFirstMatchingSlot | libretro/libretro.cpp:355-382 | with no matching slot the configuration is unchanged. Otherwise the first matching slot's RTC, save type and mirroring apply, and its flash size applies with 0 meaning 65536 |
| Resolver.ResolvedFlashSize | libretro/libretro.cpp:373-376 | starting from the defaults, the resolved flash size is always 0x10000 or 0x20000 |
| Resolver.GbaInit | libretro/libretro.cpp:439-449 | the configuration is the defaults overridden by the table, and the first core call is flashSetSize with the resolved size |
| Resolver.AppliesConfig | libretro/libretro.cpp:448-454 | the calls contain rtcEnable(true) exactly when the RTC resolved on and never rtcEnable(false). They contain exactly one doMirroring, with the resolved flag. flashSetSize can only be the first call. All of this is stated of the calls gba_init makes |
| Resolver.ChoosesBios | libretro/libretro.cpp:458-480 | gba_init's calls contain CPUInit(path, true) exactly when the HLE-BIOS build has the option "enabled" and a known BIOS path, and CPUInit(NULL, false) exactly otherwise |
| Resolver.ReadsOptions | libretro/libretro.cpp:488-491 | gba_init always calls SetParallax with the parsed parallax option. A SetFrameskip call occurs exactly when frameskip is built in, and then with the parsed frameskip option |
| Resolver.UnlistedTitleKeepsDefaults | libretro/libretro.cpp:441-454 | a game code absent from the table leaves save type 0, 64 KiB flash, no RTC and no mirroring, and the plain build makes exactly the default call sequence |
| Resolver.NulGameCodeKeepsDefaults | libretro/libretro.cpp:346-365 | a header whose byte 0xAC is 0 gives the empty code, which matches padding slot 106 and so keeps the defaults |
| Resolver.RubyGetsRtcAndLargeFlash | libretro/libretro.cpp:367-382 | a ROM whose header carries AXVE runs with 128 KiB flash and the RTC on |
| Cheats.CheatNamesDistinct | libretro/libretro.cpp:621 | distinct cheat indices get distinct `cheat_%d` names |
| Cheats.CbaText | libretro/libretro.cpp:632-637 | the CodeBreaker text is 13 characters: the first eight digits, a space, and the last four digits |
| Cheats.RunWellFormed | libretro/libretro.cpp:624-656 | from any well-formed state (the empty start state included), decoding spends at least 12 hex digits per new event and emits only 13-character CodeBreaker codes of upper-case hex, 16-digit GameShark codes, or invalid reports, all under the cheat's name |
| Cheats.CheatSetWellFormed | libretro/libretro.cpp:610-660 | every code added by retro_cheat_set is a well-formed CodeBreaker or GameShark code named after the index, and at most one event is produced per 12 hex digits of the code |
| Cheats.HexRunAccumulates | libretro/libretro.cpp:626-627 | a run of hex digits is appended, upper-cased, to the pending line and emits nothing |
| Cheats.SeparatorBelowTwelveIsSkipped | libretro/libretro.cpp:628-630 | a separator after fewer than 12 digits keeps the pending digits and emits nothing |
| Cheats.SeparatorFlushes | libretro/libretro.cpp:630-651 | a separator after 12 or more digits emits the flushed event and clears the line |
| Cheats.SeparatedRun | libretro/libretro.cpp:630-651 | a separator-delimited run of 12 or more digits yields exactly the flush of its upper-cased digits |
| Cheats.JoinedRun | libretro/libretro.cpp:628-630 | a separator after fewer than 12 digits is as if absent: the digits on both sides join into one run |
| Cheats.HexOnlyCode | libretro/libretro.cpp:654-655 | for an all-hex code the terminating NUL acts as the final separator, so the whole code is one run |
| Cheats.TwelveDigitsExample | libretro/libretro.cpp:632-638 | "1234567890ab" adds the CodeBreaker code "12345678 90AB" |
| Cheats.SixteenDigitsExample | libretro/libretro.cpp:640-643 | sixteen upper-case hex digits add one GameShark code with those digits |
| Cheats.FourteenDigitsExample | libretro/libretro.cpp:645-648 | a 14-digit run is reported invalid and adds nothing |
| Cheats.ShortTailExample | libretro/libretro.cpp:628-630 | a code of five digits adds nothing |
| Cheats.SplitRunExample | libretro/libretro.cpp:628-638 | "123456-789012" joins across the early separator into the CodeBreaker code "12345678 9012" |
| Cheats.EnabledIsIgnored | libretro/libretro.cpp:610 | the enabled flag does not influence which codes are added |
| Cheats.CheatSetBuffer | libretro/libretro.cpp:610-660 | the scratch-buffer loop emits exactly the events of the functional decoder over the code and its terminating NUL |
| Cheats.LoggedRunAgrees | libretro/libretro.cpp:624-656 | with a log interface, or with guarded logging, the decoding never crashes and emits the reference events |
| Cheats.UnguardedCrashesOnFlush | libretro/libretro.cpp:639-648 | without a log interface the code as written crashes exactly when the reference decoding emits any event, and otherwise agrees with it |
| Cheats.UnguardedCrashExample | libretro/libretro.cpp:639 | with no log interface, "1234567890AB" crashes right after adding its CodeBreaker code |
| Cheats.GuardedNeverCrashes | libretro/libretro.cpp:610-660 | with each log call guarded, retro_cheat_set never crashes and adds exactly the reference codes, logger or not |
| Screen.DrawScreen | libretro/libretro.cpp:777-788 | in each of the 160 rows, eye 0's columns 0..239 land in output columns 0..239 and eye 1's 256 columns in 240..495. Columns 496..511 and everything past row 160 are unchanged, and the result is the reference frame |
| Screen.HiddenColumnsNeverRead | libretro/libretro.cpp:781-784 | eye 0's columns 240..255 never reach the output: eye images that agree on columns 0..239 give the same frame |
| Screen.VisibleRow | libretro/libretro.cpp:789 | each of the 480-pixel rows shown is eye 0's visible row followed by eye 1's first 240 columns |

## Left out

- Frontend plumbing is not modelled: the callback setters, `retro_run` and joypad polling, audio, `retro_get_system_av_info` (floating point), `retro_load_game` and ROM loading.
- `retro_get_memory_data` returns raw pointers, so it is not modelled. Only the sizes of `retro_get_memory_size` are.
- `retro_serialize` and `retro_unserialize` are not modelled. They forward to the core's `CPUWriteState` and `CPUReadState`, which are not part of this model. `retro_unserialize` hands the size to the core without a check of its own.
- `retro_cheat_reset` only calls the core's `cheatsDeleteAll`, so it is not modelled. `cheatsAddCBACode` and `cheatsAddGSACode` are recorded as events rather than executed.
- The `retro_init` code that builds the BIOS path with `strncpy`/`strncat` is not modelled: the path is a parameter.
- Profiles.Profile: the `romtitle` column of `gbaover` is not carried, because no code reads it. The `useBios` column is carried but never read: `load_image_preferences` ignores it.
- Resolver.GbaInit: `soundSetSampleRate` and `soundReset` are left out. The state-size probe is recorded as a call without its result (`serialize_size`).
- Log message texts are left out. Logging is modelled only where its absence matters: the unguarded calls in `retro_cheat_set`.
- The `video_cb` call after the copy is left out, as are the frame counters and `has_frame` (lines 789-793 of `systemDrawScreen`). Screen.VisibleRow states which pixels that call shows.
- The declarations of the `fix` and `pix` buffers are not part of this model. Screen.DrawScreen requires an output of at least 512×160 pixels and eye images of exactly 256×160, which are the bounds the loop indexes.
- SaveRam.AdjustSaveRam: `adjust_save_ram` is only ever called from `retro_init` right after the buffer is erased. The model proves the general behaviour, and SaveRam.RetroInitKeepsWholeBuffer states what that one call does.
- Logging-only `if (log_cb)` branches in `adjust_save_ram` and `load_image_preferences` are not modelled, because they do not change any state.

## Findings

| source | as written | input that shows it | evidently intended | confidence | as-written member | corrected member |
|---|---|---|---|---|---|---|
| libretro/libretro.cpp:639-648 | `retro_cheat_set` calls `log_cb` after each flushed code without checking it. `retro_init` sets `log_cb` to NULL when the frontend offers no log interface (lines 192-195). | a frontend without a log interface, and the code "1234567890AB": the CodeBreaker code is added, then NULL is called | guard each call with `if (log_cb)`, as every other logging site in the file does | high, not executed | Cheats.UnguardedCrashExample | Cheats.GuardedNeverCrashes |
