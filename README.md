# QaraOke in Dafny

QaraOke is a web application for making karaoke lyric videos. Users type or
import lyrics and time each line in an editor. They watch a preview that
sweeps colour across the active line, style it with Google Fonts, and
publish projects that others can like and follow. The React client talks
to an Express server backed by MySQL.

This project models the deterministic core of that application and proves
properties of it:

- **Preview** (`preview.dfy`): which line is active or past at a time `t`,
  and the fill percentage of the colour sweep. It also models the player
  (`currentTime`, `isPlaying`), driven by reset, play/pause, timer ticks
  with auto-stop at `lastEnd + 5`, and seeking. Clock readings are
  parameters.
- **Editor** (`editor.dfy`): turning parsed input into timed lines, and
  single-field edits that drag the next line's start along. Also the bulk
  text replacement that keeps timestamps, the SubRip (SRT) export over
  whole milliseconds, and the padding of the preview-image slots to three.
- **Server** (`server.dfy`): `parseJSONField`, `parseInt` (which the
  handlers call), bearer-token extraction and the two authentication
  middlewares. Also the CORS origin test, the registration and settings
  validators, and the owner/admin access rules. Then the three-slot preview
  array (upload, delete, set-main, with JavaScript's array-growth and hole
  semantics), and the like, follow and unfollow handlers over the `likes`,
  `followers` and `notifications` tables.
- **StyleControls** (`style_controls.dfy`): the font filter, the
  200-entry cap, the stylesheet URL of a family, and the single-field style
  update.
- **LyricInput** (`lyric_input.dfy`): comma splitting of the entry box.
- **LikeButton** (`like_button.dfy`): the optimistic toggle, with a
  snapshot and rollback, and the mount effect.
- **Auth** (`auth.dfy`): the lower-casing username field and the
  register-only checks before the request.
- **EditProfile** (`edit_profile.dfy`): the live password rules and the
  save guard.
- **KeyboardShortcuts** (`keyboard_shortcuts.dfy`): which shortcuts fire
  for a key event, and how a shortcut is labelled on and off a Mac.
- **App** (`app.dfy`): the Numpad6 + Numpad9 chord that opens the admin
  login, and the layout chosen for a path.
- **Language** (`language.dfy`): the `t` lookup with its fallback and
  underscore replacement, and the initial language.
- **QueryClient** (`query_client.dfy`): the retry counts and the
  exponential retry delay.
- **Migrations** (`migrations.dfy`): the migration runner. Each `.sql`
  file runs once, in sorted order; its statements run in order; a file is
  recorded only after all of them succeed, and the first failure stops the
  run.
- **TextUtil** (`text_util.dfy`): the JavaScript string operations the
  others share. These are `split`/`join` on one character, `trim`, ASCII
  case mapping, `replace` of every occurrence, `includes`, `startsWith`,
  `endsWith`, number printing and `padStart`, with their round-trip lemmas.

Where the source changes state step by step, the model is a class with the
same fields. Each method's `ensures` ties the new state to a function of the
old state, and the lemmas are stated over those functions. JavaScript
`undefined`, falsy values, array holes and `parseInt`'s NaN are modelled
explicitly.

## Model

| member | source | states |
|---|---|---|
| Preview.FillPercentage | src/components/Preview.jsx:96-107 | The fill lies in [0, 100]. It is 100 for a past line and 0 for a line neither active nor past. For an active line of positive duration it is (t − start)/(end − start)·100, and it is 0 for an active zero-length line |
| Preview.ActiveAndPastExclusive | src/components/Preview.jsx:96-97 | No line is active and past at once; active iff start ≤ t ≤ end, past iff t > end |
| Preview.InvertedLineFill | src/components/Preview.jsx:96-107 | A line ending before it starts is never active, so its fill is 0 or 100 |
| Preview.ZeroDurationLine | src/components/Preview.jsx:100-106 | A zero-length line is active at its instant with fill 0. Its fill is 100 strictly after it and 0 before it |
| Preview.FillMonotone | src/components/Preview.jsx:96-107 | For start ≤ end the fill never decreases as t grows |
| Preview.MaxEnd | src/components/Preview.jsx:24 | `Math.max` of the ends is an upper bound of every end and is one of them |
| Preview.LastEnd | src/components/Preview.jsx:53 | The largest end for a non-empty list and 0 for an empty one |
| Preview.SliderMax | src/components/Preview.jsx:53-54 | `maxTime \|\| 10`: lastEnd + 5 unless that is 0, never 0 |
| Preview.ResetStep | src/components/Preview.jsx:9-12 | A reset trigger stops playback and rewinds to 0 |
| Preview.ToggleStep | src/components/Preview.jsx:15-21 | Play/pause flips `isPlaying` and keeps `currentTime`. Starting anchors the timer at now − currentTime |
| Preview.TickStep | src/components/Preview.jsx:19-28 | A paused player is unchanged. Past lastEnd + 5 the player stops and rewinds to 0; otherwise the time since the anchor becomes `currentTime` |
| Preview.SeekStep | src/components/Preview.jsx:45-51 | Seeking sets `currentTime` to the value. A playing player restarts anchored at the value |
| Preview.ResumeContinuesFromPause | src/components/Preview.jsx:17-21 | After resuming, a tick `elapsed` seconds later reads pausedTime + elapsed, not elapsed |
| Preview.SeekWhilePlaying | src/components/Preview.jsx:45-50 | After a seek while playing, a tick `elapsed` seconds later reads value + elapsed |
| Preview.TickBounded | src/components/Preview.jsx:20-28 | After a tick the time is within lastEnd + 5, or the player has stopped at 0 |
| Preview.Player.ResetOnTrigger | src/components/Preview.jsx:9-12 | The fields after the reset effect equal `ResetStep` of the old state |
| Preview.Player.TogglePlay | src/components/Preview.jsx:41-43 | The fields after `togglePlay` (with the effect's anchoring) equal `ToggleStep` |
| Preview.Player.OnInterval | src/components/Preview.jsx:19-28 | The fields after one timer firing equal `TickStep` |
| Preview.Player.HandleSeek | src/components/Preview.jsx:45-51 | The fields after `handleSeek` equal `SeekStep` |
| Editor.Normalize | src/pages/Editor.jsx:265-297 | One line per parsed item, in order, with `id` equal to the index |
| Editor.NormalizeStructured | src/pages/Editor.jsx:270-286 | Structured items keep text and start, and keep an explicit end. A missing end becomes the next item's start, or start + 2 for the last item |
| Editor.NormalizePlain | src/pages/Editor.jsx:289-294 | Plain strings become trimmed lines with start = end = 0 |
| Editor.NormalizedTimelineContiguous | src/pages/Editor.jsx:273-278 | Items without ends and with non-decreasing starts give a gap-free timeline of well-formed lines |
| Editor.RemoveAt | src/pages/Editor.jsx:301-302 | In `UpdateLyricSpec` (updateLyric), removal deletes exactly index i and keeps the others in order; an out-of-range index changes nothing |
| Editor.UpdateFieldFrame | src/pages/Editor.jsx:304-309 | In `UpdateLyricSpec` (updateLyric), a field edit changes only that field of line i, keeps the length, and moves line i+1's start only when the end of a non-last line is set |
| Editor.EndEditKeepsNeighbourAdjacent | src/pages/Editor.jsx:306-307 | In `UpdateLyricSpec` (updateLyric), setting a non-last line's end makes the next line start at the same value |
| Editor.ReplaceTexts | src/pages/Editor.jsx:368-379 | The bulk edit keeps length, ids and timings. Lyric k gets the trimmed k-th non-blank line when there is one; later lyrics are unchanged |
| Editor.ApplyTextLines | src/pages/Editor.jsx:371-377 | The copy-then-`forEach` loop produces exactly `ReplaceTexts` |
| Editor.ReplaceTextsStep | src/pages/Editor.jsx:371-375 | One `forEach` step: line k replaces the text of lyric k with its trimmed form when lyric k exists, and otherwise changes nothing |
| Editor.BlankLinesSkipped | src/pages/Editor.jsx:369 | The lines used are non-blank, at most one more than the line breaks |
| Editor.Field | src/pages/Editor.jsx:402 | `toString().padStart` gives at least `width` characters. It is a digit string iff the number is non-negative, and then it reads back as that number |
| Editor.FieldWidth | src/pages/Editor.jsx:398-402 | In `FormatSrtTime` (formatTime) of a non-negative time, minutes and seconds print as exactly 2 digits, milliseconds as exactly 3 |
| Editor.TimeFields | src/pages/Editor.jsx:398-401 | The fields `FormatSrtTime` (formatTime) computes from a non-negative time: minutes < 60, seconds < 60 and ms < 1000, and the fields add back up to the time |
| Editor.SrtTimeRoundTrip | src/pages/Editor.jsx:397-403 | Reading an `HH:MM:SS,mmm` time printed by `FormatSrtTime` (formatTime) back gives the non-negative milliseconds it was printed from |
| Editor.SrtTimeWidths | src/pages/Editor.jsx:397-402 | `FormatSrtTime` of a non-negative time prints hours of at least two digits, then 2, 2 and 3 digits, separated by `:`, `:` and `,` |
| Editor.NegativeTimePrinted | src/pages/Editor.jsx:397-402 | A negative time prints every field with its sign: -0.5 s gives `-1:-1:-1,-500` |
| Editor.NegativeMillisPadded | src/pages/Editor.jsx:401-402 | `padStart` puts the zeros before the sign: -0.005 s gives `-1:-1:-1,0-5` |
| Editor.TruncRem | src/pages/Editor.jsx:399-401 | JavaScript `%` keeps the sign of the dividend: below the divisor in size, equal to the Euclidean remainder for a non-negative dividend, and never positive for a negative one |
| Editor.CueOf | src/pages/Editor.jsx:401 | A cue's millisecond times are the floors of the seconds × 1000, negative times included; the text is kept |
| Editor.CueBlockLines | src/pages/Editor.jsx:406 | For a text without a line break, a cue block splits into number, timing line, text and an empty rest |
| Editor.CueBlocksLines | src/pages/Editor.jsx:405-407 | For cues whose texts hold no line break, the joined blocks split into the cues' four lines each |
| Editor.NumberedAt | src/pages/Editor.jsx:405 | In `map((lyric, index) => …)`, element k is built from lyric k and the number `first + k` |
| Editor.SrtCueLayout | src/pages/Editor.jsx:405-407 | For lyrics whose texts hold no line break, the export has 4 lines per lyric. Lines 4k..4k+3 are k+1, the timing line, the text and "" |
| Editor.SrtExportLayout | src/pages/Editor.jsx:397-407 | For lyrics whose texts hold no line break, the exported lyrics (`srtContent`) have 4 lines per lyric: its number from 1, the timing line of its floored times, its text and "" |
| Editor.PadPreviewUrls | src/pages/Editor.jsx:70-71 | The result has length max(3, n), keeps the existing entries and pads with null |
| Editor.LyricsEditor.HandleLyricsParsed | src/pages/Editor.jsx:265-297 | The new `lyrics` is `Normalize` of the input |
| Editor.LyricsEditor.UpdateLyric | src/pages/Editor.jsx:299-311 | The new `lyrics` is `UpdateLyricSpec` of the old list |
| Editor.LyricsEditor.UpdateAllLyricsText | src/pages/Editor.jsx:368-379 | The new `lyrics` is `ReplaceTexts` of the old list and the non-blank lines |
| Server.ParseJsonField | server/index.js:201-213 | A falsy field gives the fallback, an array gives itself, and any other non-string gives the fallback |
| Server.ParseJsonFieldSource | server/index.js:201-213 | A result other than the fallback is the array field itself, or the array a non-empty string parses to |
| Server.ParseJsonFieldRejects | server/index.js:204-211 | A string that does not parse, or parses to a non-array, gives the fallback |
| Server.ParseInt | server/index.js:637 | `parseInt` is a number exactly when digits follow the whitespace and sign (hex after `0x`) |
| Server.ParseIntOfNat | server/index.js:637 | `parseInt` reads back every printed natural number |
| Server.SlotOrZero | server/index.js:557 | `parseInt(slot) \|\| 0`: a missing or NaN slot is 0, otherwise the parsed value |
| Server.TokenOf | server/index.js:217-219 | The token is the non-empty second space-separated field of the header. There is no token without one |
| Server.TokenOfScheme | server/index.js:218 | `<scheme> <token>` yields the token whatever the scheme word |
| Server.NoSpaceNoToken | server/index.js:218-219 | A header without a space yields no token |
| Server.Authenticate | server/index.js:216-229 | 401 iff there is no token, 403 iff the verifier rejects it, and otherwise the verified user |
| Server.AuthenticateAdmin | server/index.js:231-240 | Authenticated iff authenticated with a truthy `is_admin`; 401 exactly as for plain authentication |
| Server.AllowedOrigins | server/index.js:24 | The comma-split `ALLOWED_ORIGINS`, or `['http://localhost:5173']` when it is unset or empty |
| Server.ConfiguredOrigins | server/index.js:24-33 | Every configured origin passes; an origin containing a comma never does |
| Server.DefaultOriginsOnly | server/index.js:24-33 | Without configuration, a non-empty origin passes iff it is the development origin |
| Server.RegisterChecks | server/index.js:315-327 | The username is lower-cased first. Registration is accepted iff both regexes pass, and 400 for the username iff its regex fails |
| Server.RegisterRequest | server/index.js:314-316 | A missing or non-string `username` makes the handler throw before any check answers; a string goes through `RegisterChecks` |
| Server.AcceptedUsernameIsLower | server/index.js:316-319 | A username passing the regex is already lower-case |
| Server.ReadProject | server/index.js:725-751 | 404 iff there is no row. The project is visible iff it is public or the decoded viewer id is truthy and equals the owner's |
| Server.PrivateProjectHidden | server/index.js:747-751 | A private project is refused to anonymous requests and to non-owners |
| Server.NonAdminLimits | server/index.js:408-412 | A non-admin may delete only their own projects and comments, and only themselves as a user |
| Server.Put | server/index.js:573 | A write at an array index (below 2^32 − 1) grows the array with holes past the end and changes only that index |
| Server.Write | server/index.js:573 | `a[key] = v` writes as `Put` at an array index; at a negative key or one from 2^32 − 1 on, the array is unchanged |
| Server.TakeThree | server/index.js:576 | `slice(0, 3)` is a prefix of at most 3 entries |
| Server.UploadSlots | server/index.js:572-576 | At most 3 entries. For slot 0..2 that slot holds the new URL, and the other first-three slots are unchanged. A key that is no array index only truncates; a slot from 3 to 2^32 − 2 leaves exactly 3 entries |
| Server.UploadPreviewSpec | server/index.js:555-588 | 400 iff there is no file, 404 iff the caller owns no such project. Otherwise the new array is `UploadSlots` of the stored one; it is saved with entry 0 as the legacy URL, unless entry 0 is a hole, which the database driver refuses as a bind value, giving 500 |
| Server.UploadToFirstSlotSaved | server/index.js:557-580 | An upload with no slot field goes to slot 0 and is always saved, as the legacy image too |
| Server.FirstUploadToSecondSlotFails | server/index.js:570-587 | The first upload of a project into slot 1 leaves entry 0 a hole, so it fails with 500 and nothing is saved |
| Server.UploadBeyondThreeIsLost | server/index.js:573-576 | An upload to slot ≥ 3 loses the image: the result holds the old first entries. Below 2^32 − 1 it is padded with holes (saved as JSON `null`) to three; from there on it is only cut to three |
| Server.FirstNonNullIndex | server/index.js:655 | `find` stops at the first entry that is not `null` (holes included) |
| Server.FirstImage | server/index.js:654-655 | The legacy image is `null` or a truthy entry of the array |
| Server.FirstImageCases | server/index.js:655 | When the first non-null entry is truthy, it is the legacy image |
| Server.NoImageLeft | server/index.js:655 | An all-null array has no legacy image |
| Server.ValidSlot | server/index.js:637-638 | A slot is accepted iff it parses to an integer in 0..2 |
| Server.DeletePreviewSpec | server/index.js:636-667 | 400 iff the slot is invalid, 404 iff there is no project, and the slot becomes null with the legacy image recomputed |
| Server.SwapWithFirst | server/index.js:683-686 | Slots 0 and s are exchanged and every other index reads as before; the length is as the array writes make it |
| Server.SetMainPreviewSpec | server/index.js:669-699 | 400 iff the slot is invalid, 404 iff there is no project. Otherwise the array is `SwapWithFirst` of the stored one, saved with the new entry 0 as the legacy image, unless entry 0 is now a hole, giving 500 |
| Server.SetMainPastEndFails | server/index.js:683-698 | Choosing slot 2 of a one-image project moves a hole into entry 0, so the request fails with 500 |
| Server.SwapFirstWithItself | server/index.js:683-686 | Setting slot 0 as main changes nothing |
| Server.SwapTwice | server/index.js:683-686 | Two swaps restore every index, and restore the array itself when the slot existed |
| Server.UploadPreview | server/index.js:555-588 | The handler's steps, the refused bind included, produce `UploadPreviewSpec` |
| Server.DeletePreview | server/index.js:636-667 | The handler's steps produce `DeletePreviewSpec` |
| Server.SetMainPreview | server/index.js:669-699 | The handler's swap through `temp`, and the refused bind, produce `SetMainPreviewSpec` |
| Server.LikeStep | server/index.js:972-999 | An existing like is removed with answer false. Otherwise, for an existing project, the like is inserted with answer true and an owner other than the liker is notified; for a missing project the insert breaks the `likes` foreign key (server/index.js:131) and the answer is 500 with nothing changed. Followers are untouched |
| Server.LikeTwiceRestores | server/index.js:977-999 | On an existing project two toggles restore the likes, give opposite answers and add at most one notification; on a missing one the second toggle fails with 500 and changes nothing |
| Server.OwnLikeSilent | server/index.js:987-993 | Liking one's own project adds no notification |
| Server.FollowStep | server/index.js:490-509 | Self-follow gives 400 and changes nothing. A target that does not exist gives 500 and changes nothing: its row is ignored and its notification breaks the foreign key (server/index.js:169). Otherwise the pair is inserted if absent and a notification is always added |
| Server.UnfollowStep | server/index.js:511-521 | Unfollow removes exactly the pair; nothing else changes |
| Server.FollowTwiceNotifiesTwice | server/index.js:494-503 | Following an existing user twice keeps one row but sends two notifications; a missing one gets none |
| Server.FollowThenUnfollow | server/index.js:494-516 | Follow then unfollow restores the followers when the pair was absent |
| Server.SocialDb.ToggleLike | server/index.js:969-1000 | The tables and the answer after the handler equal `LikeStep` |
| Server.SocialDb.Follow | server/index.js:490-509 | The tables and the answer after the handler equal `FollowStep` |
| Server.SocialDb.Unfollow | server/index.js:511-521 | The tables after the handler equal `UnfollowStep` |
| StyleControls.FilterFonts | src/components/StyleControls.jsx:45-52 | Every kept font matches search, category and subset, and no more fonts come out than went in |
| StyleControls.FilterFontsKeeps | src/components/StyleControls.jsx:45-52 | The result is an order-preserving subsequence. A font is in it iff it is in the list and matches, and a matching font occurs as often as in the list |
| StyleControls.NoFilterKeepsAll | src/components/StyleControls.jsx:47-49 | Empty search with category and subset `all` keeps every font |
| StyleControls.InitialFilterNeedsLatin | src/components/StyleControls.jsx:6-8 | With the initial filter, a font without the `latin` subset is hidden |
| StyleControls.SearchIgnoresCase | src/components/StyleControls.jsx:47 | The search ignores letter case |
| StyleControls.OfferedFonts | src/components/StyleControls.jsx:139 | At most 200 fonts, a prefix of the filtered list |
| StyleControls.HandleChange | src/components/StyleControls.jsx:29-31 | Only the named field changes; it takes the value |
| StyleControls.FontUrl | src/components/StyleControls.jsx:40-41 | The URL starts with the Google Fonts prefix, ends with `&display=swap` and has no spaces |
| StyleControls.FontUrlRoundTrip | src/components/StyleControls.jsx:40-41 | A family without `+` is recovered from its URL. Space and `+` give the same URL |
| StyleControls.SelectFont | src/components/StyleControls.jsx:33-43 | An empty choice changes nothing. Otherwise `fontFamily` and `fontUrl` are set and every other field is kept |
| LyricInput.HandleParse | src/components/LyricInput.jsx:6-13 | No call iff the text is blank. Otherwise at most commas + 1 pieces, each non-blank and comma-free |
| LyricInput.HandleParsePieces | src/components/LyricInput.jsx:11 | The pieces are the non-blank comma fields, in order, each as often as it occurs; blank fields never appear |
| LyricInput.SingleLine | src/components/LyricInput.jsx:11 | Text without commas is passed whole and untrimmed |
| LyricInput.CommaOnly | src/components/LyricInput.jsx:7-12 | `","` is not blank, so the callback gets an empty list |
| LyricInput.PiecesUntrimmed | src/components/LyricInput.jsx:11 | `"a, b"` gives `["a", " b"]`: pieces are not trimmed |
| LikeButton.WithDefault | src/components/LikeButton.jsx:5 | A default parameter replaces `undefined` only |
| LikeButton.MountEffect | src/components/LikeButton.jsx:12-18 | The effect, on mount and on each change of its props, always takes the (defaulted) props |
| LikeButton.PropsChanged | src/components/LikeButton.jsx:12-38 | When the props change, liked and count become the defaulted props, also while a request is loading; loading is kept |
| LikeButton.CountOnlyPropsResetHeart | src/components/ProjectCard.jsx:236 | A parent passing only `initialCount` turns the heart off on each change; a server answer then settles on its liked value and the new count |
| LikeButton.NeverAsksServer | src/components/LikeButton.jsx:12-37 | The server check in the mount effect is unreachable |
| LikeButton.InitialState | src/components/LikeButton.jsx:5-18 | The button starts from the defaulted props, not loading |
| LikeButton.BeginToggle | src/components/LikeButton.jsx:40-55 | Without a token or while loading nothing changes and nothing is sent. Otherwise liked flips, count moves by ∓1, loading starts and the old values are saved |
| LikeButton.Settle | src/components/LikeButton.jsx:57-79 | Success takes the server's liked and keeps the optimistic count. Failure restores the snapshot, and loading ends either way |
| LikeButton.FailedToggleRestores | src/components/LikeButton.jsx:50-79 | A failed toggle leaves the state exactly as before |
| LikeButton.PressWhileLoadingIgnored | src/components/LikeButton.jsx:48 | A second press during a request changes nothing |
| LikeButton.AgreesWithServer | src/components/LikeButton.jsx:53-70 | When the button showed the server's state, it shows it again after the reply: an answer confirms the flip with the count moved by one towards it, and a 500 rolls the button back |
| LikeButton.LikeButtonState.constructor | src/components/LikeButton.jsx:5-18 | The fields start as `InitialState` |
| LikeButton.LikeButtonState.HandleToggleLike | src/components/LikeButton.jsx:40-55 | The fields and the snapshot after the synchronous part equal `BeginToggle` |
| LikeButton.LikeButtonState.OnPropsChange | src/components/LikeButton.jsx:12-38 | The fields after the effect re-runs equal `PropsChanged` of the old fields; the snapshot is kept |
| LikeButton.LikeButtonState.OnReply | src/components/LikeButton.jsx:57-79 | The fields after the request ends equal `Settle` with the saved snapshot |
| Auth.OnUsernameInput | src/pages/Auth.jsx:85 | The field holds the typed value lower-cased; nothing else changes |
| Auth.Submit | src/pages/Auth.jsx:11-31 | An empty field blocks the submit and changes nothing. With both fields filled, login always sends; register sends iff both regexes pass, and otherwise sets the username or the password message; the request carries the fields |
| Auth.ClientAgreesWithServer | src/pages/Auth.jsx:15-29 | For a lower-case username, the form sends a registration iff the server's checks accept it, under the same name |
| Auth.LoginUnchecked | src/pages/Auth.jsx:15-31 | Login sends what was typed, unchecked, once both fields are filled |
| Auth.TypedCaseIrrelevant | src/pages/Auth.jsx:17-24 | After typing, registration is sent iff the lower-cased value and the password pass |
| Auth.AuthForm.OnUsernameChange | src/pages/Auth.jsx:85 | The fields equal `OnUsernameInput`, and the username stays lower-case |
| Auth.AuthForm.OnPasswordChange | src/pages/Auth.jsx:101 | Only the password changes |
| Auth.AuthForm.ToggleMode | src/pages/Auth.jsx:119 | Only the mode flips |
| Auth.AuthForm.HandleSubmit | src/pages/Auth.jsx:11-31 | The fields and the request equal `Submit` |
| EditProfile.NoWhitelist | src/pages/EditProfile.jsx:22-27 | Any character may be appended to a valid password |
| EditProfile.RulesDisagreeWithServer | src/pages/EditProfile.jsx:21-27 | `Password1!` passes the form and fails the server's settings regex; `password1@` the reverse |
| EditProfile.Save | src/pages/EditProfile.jsx:85-110 | Nothing is sent iff a non-empty password breaks the rules, which sets the error and ends saving. Otherwise the request carries the fields, and an empty password is left out |
| EditProfile.OnSaveReply | src/pages/EditProfile.jsx:112-129 | Success shows the message and clears the password, a refusal shows `Error: <text>`, a network error shows its message, and saving ends |
| EditProfile.SentPasswordsPassClientRules | src/pages/EditProfile.jsx:91-110 | A sent password passes the form's rules, and `Password1!` is sent |
| EditProfile.EditProfileForm.HandleSave | src/pages/EditProfile.jsx:85-110 | The fields and the request equal `Save` |
| EditProfile.EditProfileForm.OnReply | src/pages/EditProfile.jsx:112-129 | The fields equal `OnSaveReply` |
| KeyboardShortcuts.FiringBelow | src/hooks/useKeyboardShortcuts.js:15-41 | Exactly the firing shortcuts, in increasing list order |
| KeyboardShortcuts.HandleKeyDown | src/hooks/useKeyboardShortcuts.js:11-42 | The loop fires exactly `Firing`, and calls `preventDefault` iff something fired |
| KeyboardShortcuts.UnrequestedShiftOrAltBlocks | src/hooks/useKeyboardShortcuts.js:32-33 | A shortcut not asking for Shift (Alt) never fires while Shift (Alt) is held |
| KeyboardShortcuts.MetaSatisfiesCtrl | src/hooks/useKeyboardShortcuts.js:20-31 | Cmd satisfies a Ctrl shortcut, and the key's case does not matter |
| KeyboardShortcuts.InputFieldsFilter | src/hooks/useKeyboardShortcuts.js:13-17 | In an input field only `allowInInput` shortcuts fire |
| KeyboardShortcuts.ShortcutParts | src/hooks/useKeyboardShortcuts.js:59-64 | One part per requested modifier, then the upper-cased key; Ctrl first |
| KeyboardShortcuts.FormatShortcut | src/hooks/useKeyboardShortcuts.js:59-66 | The pushes and the join produce `Label` of `ShortcutParts` |
| KeyboardShortcuts.FormatExamples | src/hooks/useKeyboardShortcuts.js:55-66 | `Ctrl+S` off a Mac and `⌘S` on one |
| KeyboardShortcuts.LabelSplitsBack | src/hooks/useKeyboardShortcuts.js:65 | Off a Mac the label splits back at `+` into its parts when the key has no `+` |
| App.KeyDown | src/App.jsx:53-60 | The modal opens iff both chord keys are held after adding the code, and the set is then cleared. Otherwise the code is added |
| App.KeyUp | src/App.jsx:62-64 | Only the released code leaves the set |
| App.ChordNeedsBoth | src/App.jsx:53-64 | A run of events that never presses one of the chord keys never opens the modal |
| App.ChordOpens | src/App.jsx:54-58 | Pressing the two keys, in either order, opens it |
| App.ClearedAfterOpening | src/App.jsx:58 | After opening, one chord key alone does not reopen it |
| App.ChordDetector.HandleKeyDown | src/App.jsx:53-60 | The set equals `KeyDown`; the modal flag becomes set when it opened |
| App.ChordDetector.HandleKeyUp | src/App.jsx:62-64 | The set equals `KeyUp`; the flag is kept |
| App.ChordDetector.CloseModal | src/App.jsx:79 | The flag is cleared; the set is kept |
| App.LayoutFor | src/App.jsx:18-43 | Auth layout iff the path is `/auth`. Bare iff it starts with `/editor` and is not `/auth`; navigation otherwise |
| App.EditorPathsBare | src/App.jsx:27-29 | Every `/editor…` path is bare |
| App.NavigatedRoutes | src/App.jsx:81-92 | The other routes get the navigation |
| Language.InitialLanguage | src/context/LanguageContext.jsx:7 | The stored language when non-empty, otherwise `en` |
| Language.Entry | src/context/LanguageContext.jsx:14 | The translation when present and non-empty, otherwise the key |
| Language.T | src/context/LanguageContext.jsx:13-16 | Defined iff the language has a table. The result has no `_` and is as long as the entry |
| Language.MissingKeyShown | src/context/LanguageContext.jsx:14-15 | A missing key comes back with `_` as spaces, unchanged if it has none |
| Language.FallbackIdempotent | src/context/LanguageContext.jsx:13-16 | Looking up a shown fallback again gives it back |
| Language.PersistedLanguageRestored | src/context/LanguageContext.jsx:7-11 | The persisted language is the one restored |
| QueryClient.RetryDelay | src/utils/queryClient.js:16 | The delay lies in [1000, 30000] |
| QueryClient.RetryDelayMonotone | src/utils/queryClient.js:16 | The delay never decreases with the attempt |
| QueryClient.RetryDelaySchedule | src/utils/queryClient.js:16 | 1000·2ⁿ for n ≤ 4 and 30000 from n = 5 on |
| QueryClient.RetryCounts | src/utils/queryClient.js:15-19 | Queries retry once, mutations never |
| Migrations.Insert | server/runMigrations.js:33 | Insertion keeps the list sorted and adds exactly the element |
| Migrations.SortNames | server/runMigrations.js:33 | `sort()` gives a sorted permutation |
| Migrations.SqlNames | server/runMigrations.js:31-32 | Exactly the listed names ending in `.sql` |
| Migrations.SqlFiles | server/runMigrations.js:31-33 | Sorted, and exactly the listed `.sql` names |
| Migrations.Statements | server/runMigrations.js:60 | Statements are non-blank and contain no `;` |
| Migrations.StatementsPieces | server/runMigrations.js:60 | The statements are the non-blank `;` pieces, in order, each as often as it occurs; blank pieces never appear |
| Migrations.FirstFailure | server/runMigrations.js:62-66 | The index of the first failing statement, or the count when none fails |
| Migrations.RunStatements | server/runMigrations.js:62-66 | The table is unchanged. Success iff no statement fails, having sent all of them; otherwise everything up to and including the first failure was sent |
| Migrations.Pending | server/runMigrations.js:42-52 | The files to run are an order-preserving subsequence of the sorted files, each once: exactly the unrecorded ones |
| Migrations.FirstFailingFile | server/runMigrations.js:58-78 | The index of the first pending file with a failing statement, or their number when none has one |
| Migrations.RunFilesOrder | server/runMigrations.js:42-79 | The pending files before the first failing one are recorded, in order. The log gains their statements, file after file, then the failing file's statements up to the failure; that file is named, and nothing after it runs |
| Migrations.RunMigrationsOrder | server/runMigrations.js:12-82 | The same, for a whole run over the sorted `.sql` files |
| Migrations.RunFilesPending | server/runMigrations.js:42-79 | The loop over the files runs exactly the pending files, in order |
| Migrations.RunPendingRecords | server/runMigrations.js:68-72 | The recorded files are the pending ones before the first failing one |
| Migrations.RunPendingNames | server/runMigrations.js:75-78 | A failure names the first failing pending file |
| Migrations.RunPendingLogs | server/runMigrations.js:62-66 | The log is the statements of the completed files, then the failing file's statements up to its failure |
| Migrations.RunFiles | server/runMigrations.js:42-79 | Recorded names only grow, and only with listed files. Completion records every file; a failure names a listed file left unrecorded |
| Migrations.RunMigrationsSpec | server/runMigrations.js:12-82 | A missing directory or no `.sql` files changes nothing. Completion records every `.sql` file; a failure names an unrecorded listed file |
| Migrations.AllRecordedIdle | server/runMigrations.js:42-52 | When every file is recorded nothing runs |
| Migrations.SecondRunIdle | server/runMigrations.js:42-52 | A second run after a completed one changes nothing |
| Migrations.SingleFile | server/runMigrations.js:58-78 | A file is recorded after all its statements succeed; with a failing statement it is not recorded |
| Migrations.MigrationRunner.RunFile | server/runMigrations.js:58-66 | The inner loop's state and outcome equal `RunStatements` |
| Migrations.MigrationRunner.RunMigrations | server/runMigrations.js:12-82 | The nested loops' final state and result equal `RunMigrationsSpec` |

## Left out

- Network requests, Express routing, multer and Cloudinary uploads, bcrypt hashing, JWT signing and the rate limiter are left out. MySQL access is also left out; rows and query outcomes are parameters. Three database errors are modelled as the handler's 500 answer: the driver's refusal of an `undefined` bind value, and the foreign keys broken by a like on a missing project and by a follow of a missing user. The authenticated user is taken to exist.
- `JSON.parse` and `jwt.verify` are opaque function parameters, so their own behaviour is not modelled.
- Floating-point arithmetic is not modelled: times are exact reals, and NaN exists only as `parseInt`'s `None`. The SRT formatter works on whole milliseconds, so `Math.floor((s % 1) * 1000)` rounding is not captured.
- Editor.CueBlockLines, Editor.CueBlocksLines, Editor.SrtCueLayout, Editor.SrtExportLayout: stated only for texts without a line break. A text with one (LyricInput keeps inner line breaks; the parser trims only the ends) spreads its cue over more lines, and the layout lemmas do not describe that export.
- Editor.CueOf: times are floored to whole milliseconds before the fields are computed. For a negative time with a fraction of a millisecond, the source's per-field `%` and `Math.floor` on seconds can give a different field (e.g. minutes) than the model's fields of the floored milliseconds.
- Strings are sequences of characters, not UTF-16 code units. Case mapping is ASCII only, where JavaScript's `toLowerCase`/`toUpperCase` are Unicode-wide. `sort()` compares characters, not UTF-16 units.
- The timer cadence (`setInterval` every 50 ms), `Date.now`, the 10 ms restart in `handleSeek`, and `scrollIntoView` are left out. Clock readings are parameters, and the restart happens at the given instant. The preview's interval effect also restarts when `lyrics` changes (src/components/Preview.jsx:32), which re-anchors its start time at the current position; that restart is not modelled.
- The reads and writes of `localStorage` are left out: the stored language is a parameter, and whether a token exists is a boolean.
- The request/response work after the answer is left out: navigation, storing the token, and the auto-login after registration.
- The migration runner's `CREATE TABLE` statement, its log lines and the `readdir` order are left out. A thrown error is modelled as the `Failed` result.
- `parseInt` is modelled without a radix argument, as the server calls it. The `- 0` of a negative zero is not distinguished.
- The react-query caching options (`staleTime`, `cacheTime`, refetch flags) are configuration read by the library and are not modelled.
- Editor.UpdateLyricSpec: a field edit requires an index inside the list. An out-of-range write, which would grow the JavaScript array, is not modelled; the timing editor only passes existing indices.
- Server.LikeStep: the like row's `id` and the notification `id`/timestamp columns are not modelled; tables are sets of pairs and a list of notifications.
- Server.RegisterRequest: a JSON object as `username` is not among the modelled values (it throws like every non-string); what Express does with the handler's rejected promise is not modelled. A non-string `password` is not modelled.
- Server.FollowStep: the target is an integer, and whether that user exists is a parameter. The source compares `parseInt` of the path id for the self-follow check but inserts the raw string.
- The `isMac` test of `navigator.platform` (src/hooks/useKeyboardShortcuts.js:8) is left out: whether the platform is a Mac is the labelling functions' `isMac` parameter.
- KeyboardShortcuts.HandleKeyDown: callbacks are represented by the shortcut's index, so what a callback does is not modelled.
