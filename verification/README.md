# btkey, modelled and proved in Dafny

btkey makes a Linux console the Bluetooth keyboard of a phone.  It takes the
machine's keyboards away from the console, forwards what is typed as HID reports,
types pasted text by finding out which keys produce which characters on that phone,
and promises to leave the machine as it found it however it ends.  This project
models the parts of it where that is hard, and proves what they promise.

`dafny verify dfyconfig.toml` checks everything.

## How it is laid out

**Learning a phone and pasting through what was learned.**  `Hid` is the wire and the
phone's edge detector: a usage in this report and not in the one before is a press.
`Phone` is an arbitrary layout with dead keys on top of it.  `Probe` types the two
probes, `Capture` and `Rows` read the mails that come back, `ProbeRoundTrip` and
`AccentRoundTrip` prove that what is read is exactly what the phone means.
`LayoutTable` chooses the cheapest way to each character, `LayoutFile` writes it down
and reads it back (`Text`, `Lines` and `Numerals` are under it), `ConsoleKeymap` is the
other source of a keymap.  `Coalescing` is how keystrokes become reports, `Streaming`,
`Escapes` and `EscapeKeys` how terminal input becomes keystrokes, `Typing` the object
that does both, `PastedKeys` text with keys among it, `Handback` what the phone is left
holding after it.  `LearnThenPaste` puts all of it together, and `ExamplePhone` shows that
its assumptions can be met.

**Taking the keyboards and owing for them.**  `Ledger` says what each operation does to
a keyboard, the kernel and the pipe; `Evdev` is the objects that do it; `Discovery` is
which nodes are opened; `LedgerInvariant` and `Grabbing` are what holds over every run
with the rest of the machine doing as it likes, `Taking` when keyboards are taken and
which come, `Lights` which lights a killed run leaves on by what it did.  `GuardianWire`
is the format of the requests, `Guardian` the process that outlives the program, `Filing`
what it has on file, `CrashSafety` the two ends together.

**Events.**  `KeyPath` is the way from a key to a report, `KeyHistory` what ought to be
down from the events alone and when the phone knows it, `KeyEpisodes` the stretches of a
run in which it could come to hold what nobody does, `HostLink` the two channels to the
one host, `LinkHistory` what they are by the events alone, `Passkeys` the pairing and
BlueZ's agent.  `Seqs` and `Wrappers` are helpers of several of these.

Code that updates objects is classes whose methods are proved equal to functions on
values; the properties are proved about those functions, over all runs.

## What is assumed where

- `LearnThenPaste.LearnThenPasteIsExact` assumes of the phone (`Learnable`, `PlainKeys`)
  that the marker key types a visible character, that Space and Enter type themselves,
  that no dead accent is the marker or a blank, that the base keys type ordinary
  characters, and that nothing a probed key or pair types breaks the line; of each mail, that the capture starts on a
  line of its own and that no line outside it looks like a sentinel; of the text, that
  each of its characters is one the phone was shown to type or a plain blank, with no
  Escape; of the written file, that header and notes are comments and that neither they
  nor the comments behind entries hold anything that ends a line.
  `ExamplePhone.ExampleIsLearnable` meets the assumptions on the phone.
- The host holds no key when a probe or a paste begins (`idle.keys == []`).
  `Coalescing.PushRegisters` says exactly when a keystroke survives without that.
- `Grabbing` takes an event handler as one step, so `take` turns the repeat off and
  reports the debt in one step; ioctls on a descriptor whose device is there succeed;
  nobody else changes the repeat or the lights of a keyboard while it is held.  A device's
  path does not change while it is plugged in; a path may be used again by another device.
- `KeyHistory` assumes nothing of a run: keys, consoles, keyboards, the link and passkey
  entry come and go as they like from the moment the session begins.  Where a report must
  not be empty its results ask that no key of the keyboard stand for usage 0, which
  `KeyHistory.KeyboardIsReal` shows of the real table; where the top row is fixed, that it
  sends only media keys, which `KeyEpisodes.TopRowIsMedia` shows of both real ones.

## Where the obvious claim is false

- A keystroke typed right after the last press has left the queue, on the same key, is
  lost: `Coalescing.RepeatAfterDrainIsLost`, exactly when in `Coalescing.PushRegisters`.
- A row is not always read back as it was typed: a dead key whose accent is the marker
  reads as a key that gives nothing, `ProbeRoundTrip.AccentLikeMarkerIsMisread`, exactly
  when in `Rows.SplitInvertsJoin`.
- The accent probe puts an answer down to the wrong base if a base no report can carry
  stands before one that composes: `AccentRoundTrip.MissingBaseIsMisread`, exactly when in
  `AccentRoundTrip.CreditedExactly` and, for every phone at once,
  `AccentRoundTrip.MissingBasesShift`.  The bases the program uses are all typed.
- A layout file can be refused for a carriage return in its header:
  `LayoutFile.CarriageReturnIsNonsense`, exactly when lines survive in
  `Text.FileSplitUnlines`.
- A dead device's repeat can be put on another that took its path:
  `Grabbing.ReusedPathIsMisdirected`, exactly when in `Grabbing.DeathIsRepaired`.
- A path with a newline in it or a blank at its end does not survive the pipe:
  `Guardian.TrailingBlankIsLost`, exactly when in `Guardian.PathSurvives`; what that does
  to a run is `CrashSafety.UnsendableDebtIsLost`.
- A program killed while it shows the phone's lock lights leaves them on:
  `Grabbing.LightIsLeftOn`, exactly when it does not in `Grabbing.DeathKeepsLights`; by what
  it did last with the lights, `Lights.DeathInTheDark` and `Lights.DeathInTheLight`.
- A key, a modifier or a media key down as a passkey is asked for and let go of during its
  entry stays down on the phone: `KeyEpisodes.PasskeyTakesTheRelease`, exactly when nothing
  does in `KeyEpisodes.PasskeyLeavesNothing`.
- A key struck while the link is down and held as it comes up is unknown to the phone:
  `KeyEpisodes.WakingKeyIsUnknown`, exactly when all is well in `KeyEpisodes.WokenInStep`.
- A key of the top row struck before the top row changes and let go of after stays down:
  `KeyEpisodes.RemappedReleaseIsLost`, exactly when none does in `KeyEpisodes.EveryKeyUp`.
- A paste abandoned between its last press and the tick that would have ended it leaves
  that key down: `Handback.ClearedTooLate`, exactly when in `Handback.LinkIsHandedBack`.
- A second passkey request cancels itself and loses the first:
  `Passkeys.SecondCallIsCancelled`, exactly when in `Passkeys.AllAnsweredOnLeaving`.
- A composition the console keymap offers can type something else on the console, if the
  kernel's table has two lines for one accent and base: `ConsoleKeymap.ShadowedComposition`,
  exactly when in `ConsoleKeymap.CompositionTypesItself`.

## Model

| member | source | states |
|---|---|---|
| LearnThenPaste.LearnThenPasteIsExact | btkey/probe.py:156-231 | For every phone meeting the assumptions, a text typed from an idle queue through the layout file made of its own two answers appears as exactly that text, with no dead key pending. |
| LearnThenPaste.LearningIsExact | btkey/probe.py:377-478 | Running both probes and reading both mails yields exactly what the phone's keys and dead-key pairs mean. |
| LearnThenPaste.TableIsComplete | btkey/probe.py:156-190 | The table has a character exactly when some probed key, or some probed dead key with some base, types it and it is no blank. |
| LearnThenPaste.PasteIsShown | btkey/typist.py:140-203 | Through any true findings, the phone shows the text less the characters nothing types, and owes no accent. |
| LearnThenPaste.FileKeepsKeymap | btkey/kbmap.py:165-234 | The keymap loaded from the written file is the one that was learned, whitespace keys included. |
| ExamplePhone.ExampleIsLearnable | btkey/keycodes.py:37-121 | A phone with a dead key and a composition meets every assumption on the real keyboard table. |
| ProbeRoundTrip.LayoutProbeRoundTrip | btkey/probe.py:289-317 | Typed anywhere in a mail, the layout probe reads back as every probed key's meaning at each level, with no problems and no dead key pending. |
| ProbeRoundTrip.LayoutTruthContents | btkey/probe.py:377-402 | A finding is in that result exactly when some probed, non-silent key at some level has that character and dead flag. |
| ProbeRoundTrip.CaptureFound | btkey/probe.py:336-352 | Lines typed between two sentinels are found again whole, even when rows between look like sentinels. |
| ProbeRoundTrip.AccentLikeMarkerIsMisread | btkey/probe.py:296-301 | On any phone, a dead key whose accent is the marker is read as a key that gives nothing. |
| AccentRoundTrip.AccentProbeRoundTrip | btkey/probe.py:319-334 | For any candidates and bases, what is read is each typed base's answer credited in order to the bases listed; with every base typed, exactly the pairs that compose and the bases each accent refused. |
| AccentRoundTrip.CreditedExactly | btkey/probe.py:466-478 | The pairs read are those that compose exactly if every base that composes is credited in its own place. |
| AccentRoundTrip.MissingBasesShift | btkey/probe.py:319-334 | They are right on every phone exactly if no base that can be typed comes after one that cannot. |
| AccentRoundTrip.MissingBaseIsMisread | btkey/probe.py:328-330 | Two bases, the first of which cannot be typed: what the second composes is put down to the first. |
| AccentRoundTrip.AccentTruthContents | btkey/probe.py:443-478 | A composition is reported exactly when its dead key was a candidate, its base was tried, and they compose to its character. |
| AccentRoundTrip.RefusedContents | btkey/probe.py:466-474 | A base is refused exactly when it was tried with the dead key and does not compose. |
| AccentRoundTrip.DeclinedContents | btkey/probe.py:476-477 | An accent is declined exactly when it refused some base, with all those it refused. |
| Probe.CaptureStrokes | btkey/probe.py:311-317 | The layout probe is sentinel, one row a level and key row with Shift+Enter after each, sentinel. |
| Probe.ComposeStrokes | btkey/probe.py:319-334 | The accent probe is a row for each candidate a report can carry, between sentinels. |
| Probe.KeyboardIsEquipped | btkey/keycodes.py:37-121 | The keyboard table names every key the probes press. |
| Rows.ReadRow | btkey/probe.py:355-375 | The loop over doubled markers reads each field as its output and dead flag, padded with nothing to the count. |
| Rows.SplitInvertsJoin | btkey/probe.py:355-375 | Splitting leftmost at doubled markers recovers the fields exactly when none holds a doubled marker or ends in the marker. |
| Rows.RowRoundTrip | btkey/probe.py:355-375 | Every entry of a row comes back in its place, results equal to the marker included, and missing ones as nothing. |
| Capture.BlockFound | btkey/probe.py:342-352 | The outermost sentinels bound the capture, whatever lies between them. |
| Capture.SentinelsRepeat | btkey/probe.py:336-340 | A sentinel is a line of one visible character repeated at least six times, blanks around it aside. |
| Capture.ReadKeys | btkey/probe.py:392-401 | A row's entries become findings in key order, silent keys nothing, several characters a problem. |
| Capture.AnnotateQuotes | btkey/probe.py:405-432 | Updating in place marks exactly the quotes of the kind the capture's smart-punctuation setting puts in doubt. |
| Capture.QuotesAreMarked | btkey/probe.py:405-432 | With a straight quote anywhere in the capture exactly the straight ones are marked, and else exactly the curly ones; nothing else of a finding changes. |
| Capture.ParseCapture | btkey/probe.py:377-402 | No capture, a wrong row count and a good capture are told apart, and a good one is read row by row. |
| Capture.ParseCompositions | btkey/probe.py:443-478 | The same for the accent capture, rows following the candidates a report can carry. |
| LayoutTable.ToLayout | btkey/probe.py:160-190 | The loop keeps, of the findings in order, what TableIsCheapest says. |
| LayoutTable.TableIsCheapest | btkey/probe.py:156-190 | A character is kept exactly when some non-dead finding types it and it is no blank, at the first of those with the fewest keystrokes and, among these, the fewest modifier keys pressed. |
| LayoutTable.AddQuoteAliases | btkey/probe.py:130-153 | The loop over the two families adds each straight quote nothing types, as AliasIsCheapest says. |
| LayoutTable.AliasIsCheapest | btkey/probe.py:143-153 | The straight quote is typed as the curly one of its family with the fewest keystrokes and then the fewest modifier keys pressed, the first of equals, and noted as arriving as it. |
| LayoutTable.AliasesAddOnly | btkey/probe.py:130-153 | Aliasing adds at most the two straight quotes, each exactly when a curly one of its family is there, and changes no other entry. |
| LayoutFile.Render | btkey/probe.py:192-231 | The text written is the header, the notes, a line for each dead key and one for each character. |
| LayoutFile.LoadLayout | btkey/kbmap.py:200-234 | A file, cut into lines as a text file is, gives the mapping of its entry lines, or the number of the first line that is nonsense. |
| LayoutFile.LoadDeadKeys | btkey/kbmap.py:237-252 | The same file gives its dead lines in order, or the number of the first that is nonsense. |
| LayoutFile.LayoutFileRoundTrip | btkey/kbmap.py:200-260 | What is rendered reads back as the table's keystrokes and the dead keys in order, whatever one-line comments stand in it, through decimal and hexadecimal. |
| LayoutFile.CarriageReturnIsNonsense | btkey/kbmap.py:214-217 | A header comment with a carriage return in it is read as two lines, and the second refused. |
| Numerals.DigitsValue | btkey/guardian.py:105-121 | A number printed in either base has its own value when read back. |
| Numerals.PaddedValue | btkey/probe.py:210-229 | Padding with zeros does not change it. |
| Text.SplitConcat | btkey/probe.py:388-389 | Whole lines come apart from what follows them, at any of the line breaks. |
| Text.FileSplitUnlines | btkey/kbmap.py:255-260 | Lines written are the lines read exactly when none holds a line feed or a carriage return. |
| ConsoleKeymap.EntriesAreRead | btkey/kbmap.py:92-118 | Every keymap entry, turned round by the ioctl, is read as the character or accent the kernel keeps there. |
| ConsoleKeymap.IfPrintableIs | btkey/kbmap.py:92-110 | A number is read as a character exactly when it is that character's and can be printed. |
| ConsoleKeymap.TablesAre | btkey/kbmap.py:66-77 | The four tables are scanned with the modifiers their index stands for: Shift its first bit, AltGr, as Right Alt, its second, and no other. |
| ConsoleKeymap.Build | btkey/kbmap.py:263-288 | The nested scan, the compositions and the whitespace make the keymap the lemmas below are about. |
| ConsoleKeymap.Compose | btkey/kbmap.py:121-134 | The loop over the composition table keeps the first usable line of each result. |
| ConsoleKeymap.SinglesAreCheapest | btkey/kbmap.py:269-278 | A character has a single key exactly when some scanned key types it, and the key kept is at its earliest table, lowest keycode first. |
| ConsoleKeymap.DeadsAreCheapest | btkey/kbmap.py:279-281 | The same for accents, among keys that type no character. |
| ConsoleKeymap.ComposedAreFirst | btkey/kbmap.py:121-134 | A composition is there exactly when no single key has the character and some line has both its dead key and its base, and the first such line wins. |
| ConsoleKeymap.BuiltPrefers | btkey/kbmap.py:283-288 | Of the ways to a character a single key wins, then the first usable composition, and the whitespace's own key only where there is neither. |
| ConsoleKeymap.SingleTypesItself | btkey/kbmap.py:272-278 | The key kept for a character types it on the console and leaves no accent waiting. |
| ConsoleKeymap.CompositionTypesItself | btkey/kbmap.py:121-134 | The two keys kept for a composition type it on the console exactly when the table has no earlier line for that accent and base. |
| ConsoleKeymap.ShadowedComposition | btkey/kbmap.py:121-134 | A keymap of two keys and a table with two such lines: what is kept for the second line's result types the first line's. |
| Coalescing.CoalescingPreservesMeaning | btkey/typist.py:234-272 | From an idle host, the coalesced reports and plain press and release pairs register the same keystrokes, in order. |
| Coalescing.PushRegisters | btkey/typist.py:234-257 | A queued keystroke registers exactly when something is queued before it or the host does not hold its key. |
| Coalescing.PushAllExactly | btkey/typist.py:234-257 | Of a run of keystrokes only the first can be lost, exactly in that case. |
| Coalescing.RepeatAfterDrainIsLost | btkey/typist.py:253-257 | The case: the last press just sent and the same key queued again. |
| Coalescing.PastesLiftNothing | btkey/typist.py:234-257 | No report both presses a key and lifts a modifier. |
| Coalescing.PushAllLength | btkey/typist.py:234-257 | The number of reports is the keystrokes plus one for each neighbouring pair that repeats a usage or changes modifiers. |
| Coalescing.NoShorterWay | btkey/typist.py:236-252 | No report sequence that never swaps keys while changing modifiers says as much in fewer reports. |
| Coalescing.CoalescingIsOptimal | btkey/typist.py:234-257 | The coalesced sequence is itself such a sequence, and so the shortest. |
| Typing.Typist.StrokesFor | btkey/typist.py:140-153 | A character's keystrokes, or none if it is unmapped or some key of it has no usage. |
| Typing.Typist.QueueStroke | btkey/typist.py:234-257 | The queue grows by a gap where one is needed, keeping the modifiers in common, and the press. |
| Typing.Typist.TypeText | btkey/typist.py:155-204 | With the link up and room in the queue, the decoded text is queued whole and an unfinished sequence is held back with its timer; otherwise nothing changes. |
| Typing.Typist.GiveUpWaiting | btkey/typist.py:219-232 | What was held back is typed character by character. |
| Typing.Typist.Enqueue | btkey/typist.py:259-272 | Probe keystrokes are queued as press and release pairs, and the timer armed. |
| Typing.Typist.Clear | btkey/typist.py:274-296 | Everything waiting is dropped, and the physical state sent again only if something was. |
| Typing.Typist.Drain | btkey/typist.py:298-310 | A tick sends one report, or ends the paste by sending the physical state. |
| Typing.RunHeard | btkey/typist.py:234-310 | However typing, probing and ticking interleave with the link up, the phone registers exactly the keystrokes asked for, in order, less those that meet their own key. |
| Handback.LinkIsHandedBack | btkey/typist.py:274-310 | Over every run, clears and a lost link included: with no tick armed nothing waits, and the last report is what the keyboards hold, unless that changed without the phone being told (the link down, a passkey's entry, the keyboards taken), exactly if no paste was cleared with its queue empty and its end still to come; else it is that paste's last press. |
| Handback.ClearedTooLate | btkey/typist.py:283-295 | A run of one such paste. |
| Typing.TypingStreams | btkey/typist.py:155-204 | A text typed in any number of reads queues what it would in one, wherever it is cut. |
| PastedKeys.KeysAreQueued | btkey/typist.py:180-203 | Text with keys sent among it is queued whole and in order: each character by its keystrokes, or nothing if one of them cannot be sent, and each key as its own keystroke with the modifiers held. |
| Escapes.MatchAt | btkey/escapes.py:83-135 | The scan with an index reads the sequence at that place, or says it is still arriving. |
| Escapes.DecodeText | btkey/escapes.py:138-168 | The loop yields the items of a text and the tail that is still arriving. |
| Escapes.EscapesStream | btkey/escapes.py:138-168 | Decoding read by read, each time taking up the tail again, gives the items and tail of decoding everything at once, for any number of reads. |
| Escapes.EscapesConserve | btkey/escapes.py:138-168 | The consumed spans and the tail are the input again, one span an item, and a tail is an unfinished sequence. |
| Escapes.IncompleteIsUnfinished | btkey/escapes.py:83-135 | Nothing is taken exactly when the text is the start of a sequence. |
| Escapes.PlainTextDecodes | btkey/escapes.py:138-168 | Text without an escape is taken character by character at once. |
| EscapeKeys.LetterKeysAreRead | btkey/escapes.py:36-46 | A cursor or function key sent with a modifier mask is read as that key with those modifiers, whatever follows. |
| EscapeKeys.NumberedKeysAreRead | btkey/escapes.py:48-58 | The same for the keys sent by number. |
| EscapeKeys.PlainLettersAreRead | btkey/escapes.py:36-46 | A cursor or function key without modifiers is read as that key, backtab with Shift, in the CSI and in the SS3 spelling. |
| EscapeKeys.PlainNumbersAreRead | btkey/escapes.py:48-58 | And one sent by number. |
| EscapeKeys.ConsoleKeysAreRead | btkey/escapes.py:113-117 | The Linux console's own spelling of F1 to F5 is read as them. |
| EscapeKeys.OthersAreRead | btkey/escapes.py:102-134 | A complete sequence for no key is passed over whole, and an escape that starts no sequence is the Escape key alone. |
| EscapeKeys.NoKeysAreRead | btkey/escapes.py:95-117 | The same in the other two spellings. |
| EscapeKeys.MaskIsModifiers | btkey/escapes.py:63-73 | Shift, Alt, Ctrl and Meta are bits 0 to 3 of the mask, and no other modifier is set. |
| EscapeKeys.TwoNumbersAreRead | btkey/escapes.py:76-80 | Two printed numbers with a semicolon between are read as those numbers. |
| Evdev.InputDevice.Grab | btkey/evdev.py:228-250 | One grab a device: refused when another program has it or it has gone, and which of the two; kept when we have it. |
| Evdev.InputDevice.HushRepeat | btkey/evdev.py:332-351 | Turns the repeat off and remembers it, once, on a device that has one. |
| Evdev.InputDevice.RestoreRepeat | btkey/evdev.py:353-359 | Puts back what was remembered, and remembers it no longer. |
| Evdev.KeyboardSet.Take | btkey/evdev.py:639-652 | Holding a keyboard saves its LEDs once and its repeat, and reports the debt. |
| Evdev.KeyboardSet.Release | btkey/evdev.py:679-699 | Letting go restores LEDs and repeat through the descriptor, settles the debt, and closes it. |
| Evdev.KeyboardSet.GrabAll | btkey/evdev.py:563-619 | Every keyboard is taken or let go of, in order, and a loss is reported exactly when one that was ours did not come. |
| Evdev.KeyboardSet.ReleaseAll | btkey/evdev.py:701-710 | Every keyboard is released, in order. |
| Evdev.KeyboardSet.SetLeds | btkey/evdev.py:661-671 | The phone's lock lights are shown on exactly the keyboards held. |
| Evdev.KeyboardSet.RestoreLeds | btkey/evdev.py:673-677 | Every keyboard whose lights were saved shows those, the grab kept. |
| Evdev.KeyboardSet.OpenAll | btkey/evdev.py:621-625 | Descriptors are taken back and the keyboards that have gone forgotten. |
| Evdev.KeyboardSet.DiscardRefusals | btkey/evdev.py:627-637 | Exactly the keyboards not held are forgotten. |
| Evdev.KeyboardSet.Forget | btkey/evdev.py:551-561 | Exactly the keyboard at that path is released and forgotten. |
| Evdev.KeyboardSet.Refresh | btkey/evdev.py:530-549 | A rescan adds what discovery found, closed while asleep, and forgets what it did not list. |
| LedgerInvariant.Replaced | btkey/evdev.py:639-699 | Handling one keyboard properly keeps the whole set's books straight. |
| LedgerInvariant.TakenHandles | btkey/evdev.py:639-652 | Taking is such a handling. |
| LedgerInvariant.ReleasedHandles | btkey/evdev.py:679-699 | Releasing is such a handling. |
| LedgerInvariant.GrabAllKeeps | btkey/evdev.py:563-619 | Taking all keyboards keeps the books straight with others beside them. |
| Grabbing.RunKeeps | btkey/session.py:542-742 | At every handler boundary of every run: held exactly while the LEDs are saved, a repeat debt only on a held, open keyboard, the guardian's map exactly the debts by path, every other device at its own repeat and its own lights. |
| Grabbing.DeathIsRepaired | btkey/guardian.py:209-220 | Killed at any boundary, the clean-up leaves every device present with its own repeat exactly unless another device, set differently, took a path with a debt outstanding. |
| Grabbing.ReusedPathIsMisdirected | btkey/guardian.py:209-220 | That case as a run: taken, unplugged, another plugged in at its path, killed. |
| Grabbing.QuitRestores | btkey/evdev.py:701-714 | An orderly end restores every device's repeat and lights with no help and leaves no debt. |
| Grabbing.BackgroundOwesNothing | btkey/session.py:696-721 | Whenever another console is in front, every device repeats and is lit as without btkey and nothing is owed. |
| Grabbing.SecondLookIsLast | btkey/session.py:542-594 | Taking the keyboards with no key down, whatever the world does in between: after a loss the second pass reports none, every keyboard the first pass holds and the second look lists stays held, and each modifier's bit says whether it is down on a keyboard that is there. |
| Taking.GrabsWithKeysUp | btkey/session.py:556-577 | Over every run: a keyboard not held before is grabbed only by coming to the front, a settled change in the directory while in front, or a key moving while they are waited for, and only with no key down on any keyboard as found. |
| Taking.KeyDownWaits | btkey/session.py:556-576 | With a key down such an event grabs nothing and leaves the session waiting; on a return to the front none is held. |
| Taking.WaitingLasts | btkey/session.py:337-345 | The wait goes on, in front, through anything but another console, until an event that wants the keyboards finds no key down. |
| Taking.KeysUpTake | btkey/session.py:577-594 | With none down the wait is over, every keyboard is held or remembered as refused, the modifiers are those physically held, and held are exactly those that were and those free - at least those still listed, after a second look. |
| Taking.ComingBackTakes | btkey/session.py:700-709 | A return to the front with no key down holds every keyboard that is listed, there and nobody else's, through its path's own device, unless an older descriptor of that path is still open. |
| Taking.SecondLookFinds | btkey/session.py:579-582 | When one that was ours is somebody else's, a device that has come meanwhile, at a path not held, and that is free, is held in the end. |
| Taking.LostIsLosing | btkey/evdev.py:578-586 | A loss is reported exactly when a keyboard that was ours once is not held, and is gone or somebody else's. |
| Taking.GrabAllHolds | btkey/evdev.py:563-619 | One pass holds each keyboard that was held or is there and nobody else's, through its own descriptor, and closes and remembers as refused every other. |
| Grabbing.DroppingIsAdopted | btkey/session.py:494-523 | A keyboard dropped by a failed read or a rescan leaves the modifiers exactly those held on the others; a rescan that drops none leaves them alone. |
| Taking.LeavingLetsGo | btkey/session.py:710-721 | Another console in front: every keyboard is released and closed, no modifier counts as held, and the wait for keys is off; told so again, nothing happens. |
| Taking.KeptExactly | btkey/evdev.py:530-561 | Forgetting one forgets exactly the keyboards at that path, discarding refusals exactly those not held, and a rescan exactly those not listed. |
| Taking.RescanAdopts | btkey/session.py:684-692 | After a rescan the modifiers are those physically held exactly when some path of the set, or of a keyboard newly found, was not listed, and else left alone. |
| Taking.WakingIsAdopted | btkey/session.py:536-540 | On the way back to the front the modifiers are those physically held if a keyboard has gone meanwhile, and else left alone. |
| Grabbing.DeathKeepsLights | btkey/evdev.py:661-699 | Killed at any boundary, the lights are the console's exactly if every keyboard held shows what was saved of it. |
| Grabbing.LightIsLeftOn | btkey/evdev.py:661-671 | A run in which they are not: a keyboard taken, a lock of the phone shown on it, killed. |
| Lights.DeathInTheDark | btkey/evdev.py:661-675 | Killed when the last lights the session put on were the console's, or it put on none, every device shows its console's lights, whatever else happened before and since. |
| Lights.DeathInTheLight | btkey/evdev.py:661-671 | Killed as it puts the phone's lights on: every device shows its console's lights exactly if each keyboard held had those same lights as it was taken. |
| Keycodes.ModifiersAreExact | btkey/session.py:723-742 | The OR of the modifiers physically held has a modifier's bit exactly when that key is held. |
| Discovery.Discover | btkey/evdev.py:441-497 | The two passes return the devices the lemmas below are about, open, and close every other node they opened; a held keyboard is among what is present exactly if some path listed leads to it. |
| Discovery.DiscoveryIsExact | btkey/evdev.py:441-497 | Exactly the keyboards, the nodes asked for and the companions of keyboards held or newly taken are found, each real path once. |
| Discovery.HeldByRealIs | btkey/evdev.py:459-463 | A real path counts as held exactly if some keyboard's path leads there, and as the last such. |
| Discovery.LinksAreFollowed | btkey/evdev.py:455-459 | A node asked for by a link is found at the end of it, keyboard or not, unless it is held. |
| Discovery.OrderDoesNotMatter | btkey/evdev.py:460-497 | Two listings of the same paths find the same devices. |
| Discovery.HeldIsPresent | btkey/evdev.py:466-475 | A keyboard held is present, by the path it goes by, exactly if some path listed leads to its real path. |
| Discovery.RescanKeepsListed | btkey/evdev.py:530-549 | So a rescan keeps a keyboard exactly if its real path is listed. |
| GuardianWire.UnderstandInvertsFormat | btkey/guardian.py:87-125 | Every request the parent formats parses back to the same numbers and text, spaces included. |
| GuardianWire.FormatIsOneLine | btkey/guardian.py:79-85 | A request with sendable text is one line that stripping does not change. |
| GuardianWire.OthersAreUnknown | btkey/guardian.py:171-206 | Only the line DONE stands the guardian down, and it passes over exactly the lines that are neither that nor PING and start with none of its verbs. |
| Guardian.Process.Record | btkey/guardian.py:186-206 | One request filed against the day the parent dies. |
| Guardian.Process.Receive | btkey/guardian.py:167-181 | A piece of the stream files every line it completes, as far as DONE or a bad number, and keeps the torn line. |
| Guardian.Process.Guard | btkey/guardian.py:148-183 | The loop stands down, dies or goes to its clean-up as the arrivals say, with the file the whole lines make, having killed a parent silent past its deadline and no other. |
| Guardian.CutsDoNotMatter | btkey/guardian.py:163-181 | However the stream is cut into reads, the file is the fold of its whole lines up to the first that ends it. |
| Guardian.DeathAtAnyByte | btkey/guardian.py:79-85 | Cut at any character, the stream leaves exactly the requests that arrived whole, and a torn last one none. |
| Guardian.RepeatsAreOwed | btkey/guardian.py:201-206 | The repeats on file are the debts reported, whatever else was asked in between. |
| Filing.FileIsExact | btkey/guardian.py:148-206 | The processes, units and consoles on file are those asked for, in order, the repeats the debts reported, and the deadline the last one asked for, unless that was 0. |
| Filing.SilenceEndsIt | btkey/guardian.py:154-183 | After any requests, the last broken off anywhere: a silence ends in the clean-up, the parent killed, exactly if a deadline stands, and is else waited through; the pipe closing ends in it with nobody killed. |
| Filing.DoneStandsDown | btkey/guardian.py:172-173 | Once DONE has arrived whole the guardian stands down and never cleans up, whatever the pipe brings after. |
| Filing.OddLinesArePassed | btkey/guardian.py:186-206 | A line that is none of the guardian's own changes nothing. |
| Filing.NoNumberEndsIt | btkey/guardian.py:176-200 | A deadline or a console asked for by what is no number ends the guardian, its clean-up undone. |
| Guardian.PathSurvives | btkey/guardian.py:113-121 | A debt arrives as sent exactly when its path has no newline, is not empty and does not end in a blank. |
| Guardian.TrailingBlankIsLost | btkey/guardian.py:171 | A path that fails it. |
| CrashSafety.CleanUpRepeats | btkey/guardian.py:209-220 | Putting the repeats back in any order sets each path's present device, and passes over the rest. |
| CrashSafety.DeathIsRepairedOverTheWire | btkey/guardian.py:113-220 | With the debts sent as characters among other requests, cut into any reads and off at any character, and read by the guardian, whether the pipe closes or falls silent with a deadline asked for last: every device is restored exactly if the debts that arrived name its repeat and no other device is hushed; with all the run's debts arrived, as in DeathIsRepaired. |
| CrashSafety.UnsendableDebtIsLost | btkey/guardian.py:113-121 | A keyboard hushed at a path the pipe cannot carry is not restored, whatever was sent. |
| KeyPath.Session.HandleKey | btkey/session.py:349-405 | A key is a modifier, a console chord, a passkey key, a media key or a key for the phone, in that order, with what each does: held keys, modifiers, reports, the console asked for, the lock lights. |
| KeyPath.Session.NoteLockKey | btkey/session.py:309-321 | A lock key forwarded toggles its own light, unless the phone has reported its lights. |
| KeyPath.Session.SendKeyboard | btkey/session.py:409-417 | With the link up the report is the modifiers and six slots; with it down nothing is sent. |
| KeyPath.Session.ReleaseAll | btkey/session.py:425-434 | Everything held is dropped, and keyboard and consumer are told so while the link is up. |
| KeyPath.Session.KeyboardGone | btkey/session.py:499-523 | What remains held is what the remaining keyboards hold, in press order, with exact modifiers, and the phone is told, the end of any media key behind it. |
| KeyPath.Session.OnDisconnected | btkey/session.py:217-224 | With the link gone nothing is held, no light is lit, and nothing counts as told. |
| KeyPath.Session.SyncHeld | btkey/session.py:723-742 | On taking the keyboards the modifiers become those physically held, and the phone is not told. |
| KeyPath.Session.OnConnected | btkey/session.py:203-241 | A new link starts with no light lit and with the top row this phone wants. |
| KeyPath.Session.OnHostLeds | btkey/session.py:279-290 | The phone's report of its lights is taken as it is, and ends the guessing. |
| KeyHistory.PhoneMirrorsKeyboard | btkey/session.py:349-423 | Over every run from the start: no key twice, in press order, exactly the keys whose latest forwarded event is a press and nothing has lifted since, exact modifiers; the last keyboard report is what was held at the last event that told the phone, and the last consumer report the media key then down. |
| KeyHistory.MediaHeardLast | btkey/session.py:391-423 | The last consumer report is the usage the table has for the media key, by way of the top row, down at the last event that told the phone of one, 0 once it was let go of. |
| KeyHistory.MediaKeysSend | btkey/session.py:386-393 | With the link up, a media key's press says the usage the table has for it by way of the top row and its release 0; nothing else is said or changed. |
| KeyHistory.PhoneKeysSend | btkey/session.py:386-403 | Any other key the keyboard table has, by way of the top row, is put down or let go of, no other key moving, and with the link up one report of all that is held goes out. |
| KeyHistory.OtherKeysSendNothing | btkey/session.py:364-396 | Every other key but a modifier says and changes nothing, unless it is a chord. |
| KeyHistory.EscapeQuits | btkey/session.py:361-384 | The program quits at Escape pressed with Alt down and Ctrl up, and at nothing else; passkey entry gets every key that is no modifier and that the console does not keep. |
| KeyHistory.ChordsAlwaysWork | btkey/session.py:349-380 | In every mode the modifiers are exact, and a console chord asks for its own console, in order, and leaves this one. |
| KeyHistory.LocksAreFollowed | btkey/session.py:279-321 | Each lock's light is what the phone last reported, or else on exactly if its key was forwarded an odd number of times on this link. |
| KeyHistory.InStepExactly | btkey/session.py:409-417 | The last report is what is held now exactly if neither a modifier nor the six slots moved since the phone was last told. |
| KeyHistory.InStepWithLinkUp | btkey/session.py:382-403 | With the link up only a modifier can have moved. |
| KeyHistory.NothingSticks | btkey/session.py:425-434 | The last keyboard and consumer reports are empty exactly if no key, modifier and media key was down when the phone was last told of them. |
| KeyEpisodes.PasskeyKeepsStep | btkey/session.py:349-384 | Across the entry of a passkey the phone stays in step exactly if every modifier ends as it began. |
| KeyEpisodes.PasskeyLeavesNothing | btkey/session.py:349-393 | Once every key is up again after an entry, the phone holds nothing exactly if no key, modifier or media key was down when it began; the modifiers are clear, and the keys held are those of the beginning. |
| KeyEpisodes.PasskeyTakesTheRelease | btkey/session.py:352-393 | Three runs in which it holds something: a letter, a Shift and a volume key, let go of during an entry. |
| KeyEpisodes.WokenInStep | btkey/session.py:409-423 | As the link comes up, whatever was struck while it was down, the phone is in step exactly if nothing is down, and of media keys exactly if none is. |
| KeyEpisodes.WakingKeyIsUnknown | btkey/session.py:409-413 | A run in which it is not: a letter struck to wake the phone and still down. |
| KeyEpisodes.EveryKeyUp | btkey/session.py:386-405 | With nothing physically held and the phone in step, the last keyboard report is empty exactly if every press forwarded had its release forwarded as the same key or was lifted. |
| KeyEpisodes.SteadyLeavesNothing | btkey/session.py:382-434 | Since everything was last lifted, with the link up, the top row fixed and no passkey: once every key struck since has been let go of the phone holds nothing. |
| KeyEpisodes.SteadyKeysUp | btkey/session.py:382-434 | The same once nothing is physically held, if the keyboards, where they are asked, miss no key struck since. |
| KeyEpisodes.ChordIsFresh | btkey/session.py:555-594 | Such a stretch begins with a return from another console reached by a chord with the link up, although the chord's keys were let go of there: nothing counts as struck. |
| KeyEpisodes.TopRowIsMedia | btkey/keycodes.py:203-216 | Both top rows send only media keys, as that asks. |
| KeyEpisodes.RemappedReleaseIsLost | btkey/session.py:226-238 | A run in which a key sticks with none held: F5 struck with the link down, the top row changed as it comes up, F5 let go of, a letter typed. |
| KeyHistory.SlotsSay | btkey/btlink.py:943-949 | A report's slots hold exactly the usages of the keys held, or all ErrorRollOver above six (HID 1.11, Appendix C). |
| HostLink.BluetoothHid.OnIncoming | btkey/btlink.py:632-652 | A host is adopted on that channel, replacing and closing what was there; a second host is closed. |
| HostLink.BluetoothHid.Disconnect | btkey/btlink.py:689-700 | Both channels are closed and there is no peer. |
| HostLink.BluetoothHid.Reconnect | btkey/btlink.py:731-759 | A dial starts only when not connected, not connecting, with a known host, and not too soon. |
| HostLink.BluetoothHid.Settle | btkey/btlink.py:788-820 | The first source of a dial settles it: failed, it closes its socket and the first leg's; up, it goes on to the second leg or hands both over. |
| HostLink.RunSound | btkey/btlink.py:632-820 | At every boundary of every run: open channels are the peer's, no peer exactly when no channel, connecting exactly when one dial is pending, no socket open that nothing answers for. |
| HostLink.DialsSettleOnce | btkey/btlink.py:786-803 | A dial's outcome never changes, and a failed one has closed its socket and the first leg's for good. |
| HostLink.SecondHostIsRefused | btkey/btlink.py:642-645 | A refused host leaves the link exactly as it was. |
| LinkHistory.LinkIsAsTold | btkey/btlink.py:632-835 | Over every run, which channels are up and to whom, which host is known, and who is being dialled for which channel are what the events alone say. |
| LinkHistory.KeysDial | btkey/btlink.py:731-758 | A key dials the known host, one connect for the first channel on an open socket of its own, exactly if not both channels are up, nobody is being dialled, and it is neither too early nor refused; else nothing changes. |
| LinkHistory.DialComesUp | btkey/btlink.py:748-758 | A dial whose first channel comes up dials on for the second; when that does, whatever happened between, the first connect's socket is the control channel, the second's the interrupt channel, and the host dialled is the peer and the one known. |
| Passkeys.Agent.RequestPasskey | btkey/btlink.py:168-185 | Both callbacks are replaced before the old entry is cleared. |
| Passkeys.Agent.Cancel | btkey/btlink.py:216-224 | The waiting call is answered as cancelled, and passkey mode left without another answer. |
| Passkeys.Pairing.HandleKey | btkey/pairing.py:91-110 | Digits are collected and sent at the last, Backspace takes one back, Enter sends, Escape gives up. |
| Passkeys.StepOrdered | btkey/pairing.py:91-110 | While active fewer digits are held than will be sent, over every event. |
| Passkeys.AnsweredAtMostOnce | btkey/btlink.py:226-246 | Over every run no call is answered twice, and none that was not made. |
| Passkeys.AllAnsweredOnLeaving | btkey/pairing.py:56-138 | Out of passkey mode every call has been answered exactly if none came while another waited. |
| Passkeys.SecondCallIsCancelled | btkey/btlink.py:171-176 | Two calls in a row: the second is cancelled at once, the first never answered. |
| Passkeys.AnswersFit | btkey/pairing.py:112-118 | Every passkey sent is below a million and every PIN exactly four digits. |
| Passkeys.DigitsAreSent | btkey/pairing.py:91-118 | Typing as many digits as asked answers the call with the number typed, or for a PIN with the very digits, zeros in front included, and nothing before. |
| Passkeys.EnterSends | btkey/pairing.py:106-118 | Enter answers the waiting call with the number typed, 0 for none, a PIN as four digits of that value, and leaves the entry. |
| Passkeys.EntryCancels | btkey/pairing.py:108-137 | Escape, the timer and the phone each answer it as cancelled and leave the entry. |
| Passkeys.SlipIsTakenBack | btkey/pairing.py:104-105 | A digit typed and taken back leaves the entry as it was. |
| Passkeys.OthersAreNothing | btkey/pairing.py:91-110 | A release, any other key, and any event but a call outside an entry change nothing. |
| Passkeys.RequestBegins | btkey/pairing.py:56-70 | Outside an entry a call begins one, of six digits, or four for a PIN, and waits. |
| Passkeys.DigitKeysTypeDigits | btkey/keycodes.py:153-160 | A key enters a digit exactly if it types that digit, on the number row or the keypad (HID Usage Tables, Keyboard/Keypad page). |

## Left out

- The wall clock: timers are events that may happen while armed, the dial rate limit is a given of each attempt.
- D-Bus, GLib sources, ioctls, sockets and files as such: they are the environment's steps, oracles or plain values; stale watch sources after a refusal is discarded are not modelled.
- The session's device handlers (take_keyboards, set_foreground, settle_devices, drop_device): functions on values over the states of the objects in Evdev, not methods; what happens in between inside one handler is a parameter of it.
- Grabbing takes any listing whatever from discovery; Discovery says which listing it is, and Discovery.RescanKeepsListed what a rescan then keeps.
- The link is three objects, each with what its users see of it: Typing.Link the reports of a paste, KeyPath.HidLink those of the keys, HostLink.BluetoothHid the channels.
- A lost keyboard found by a failed read and a keyboard found gone by a rescan are let go of the same way.
- The order in which a rescan names what it added or dropped, and all log and display text.
- LayoutFile.LoadLayout: numbers are plain decimal or 0x hexadecimal digits; Python's int() also takes signs, underscores and spaces inside.
- LayoutFile.LoadDeadKeys: the same.
- LayoutFile.Render: the order the characters are listed in, cheapest first, is given; the wording of header, notes and comments is given, only that it is comment text is used; character names from unicodedata are given.
- GuardianWire.UnderstandInvertsFormat: a number that is not plain digits ends the guardian; Python's int() would also take a sign, underscores or surrounding spaces, which the parent never sends.
- Guardian.Process.Guard: the stream is characters, not UTF-8 bytes; replacing undecodable bytes is not modelled, nor are the signals it ignores and the descriptor it is ready on.
- CrashSafety.CleanUpRepeats: of the clean-up only the repeats; killing processes, starting units and resetting consoles are filed but not carried out.
- EscapeKeys.TwoNumbersAreRead: ASCII digits; Python's isdigit accepts others that int() then rejects.
- Escapes.MatchAt: parameters are ASCII digits and semicolons; for another character isdigit accepts, the original goes on or raises where this ends the sequence.
- Escapes.EscapesStream: the same.
- Typing.TypingStreams: the same.
- Typing.RunHeard: no clear and no lost link in these runs; Handback.LinkIsHandedBack has both, and what a clear drops is in Typing.Typist.Clear.
- Evdev.KeyboardSet.SetLeds: a keyboard with no lights, or one open only for reading, is not told apart; writing to it does nothing in the original.
- Lights.DeathInTheLight: of runs that go on after the phone's lights are put on, only the condition on what shows at death, in Grabbing.DeathKeepsLights.
- ConsoleKeymap.Build: printability is a given predicate, and what cannot be read through the ioctl is absent.
- KeyPath.Session.HandleKey: a switch of console is the request and its effect on the held keys; letting the keyboards go is Grabbing's; a batch of events is a run of single ones.
- KeyHistory.PhoneMirrorsKeyboard: reports of a paste are Typing's, and a write that fails while a report is sent is an event of HostLink, not of this run.
- CrashSafety.UnsendableDebtIsLost: which other path or request a torn or trimmed path is taken for is not followed further.
- HostLink.BluetoothHid.Disconnect: LED state and the report kept for GET_REPORT are not part of it.
- HostLink.BluetoothHid.Settle: a socket refused at once in a connect is closed by the collector in the original and counted as closed here.
- Typing.Typist.TypeText: incremental UTF-8 decoding comes before it.
- Discovery.Discover: names, LEDs and repeat of a device are not asked; a physical path is given with its interface number already cut off.
- display.py, cli.py, config.py, sweep.py, advertising.py, btsock.py, hidspec.py, vt.py, fifo.py and the HIDP transaction dispatch: user interface, plumbing and small finite tables that would only add easy members.
