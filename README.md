# calver in Dafny

A model of the Go `calver` package, a library for calendar versions. A
version value (`Calver`) has two parts. One is a layout, a string such as
`YYYY.0M.MICRO-MODIFIER`, cut into tokens:

- calendar symbols: `YYYY`, `YY`, `0Y`, `MM`, `0M`, `WW`, `0W`, `DD`, `0D`;
- version symbols: `MAJOR`, `MINOR`, `MICRO`, `MODIFIER`;
- literal separators.

The other part is the version state: the major, minor and micro numbers, a
modifier text, a timestamp, a time zone and the `trimSuffix` switch.

The library does the following:

- tokenizes layouts;
- parses a version string against a layout;
- renders a version as a string, with trailing zero fields trimmed when
  `trimSuffix` is on;
- bumps versions, and moves a version on to a new time (`NextWithTime`);
- sorts a list of versions and picks the latest.

Modules, one file each:

| file | module | what it holds |
|---|---|---|
| `results.dfy` | `Results` | `Option`, `Result` and the error kinds |
| `strings.dfy` | `Strings` | digits, decimal text, zero padding, digit runs |
| `clock.dfy` | `Clock` | instants, zones and a `Calendar`: the time library's calendar functions, passed as a parameter |
| `token.dfy` | `Tokens` | the tokens, the `TrimPrefix` readers, the renderers and the layout tokenizer |
| `calver.dfy` | `Versions` | the `Calver` value, the base/suffix split, `String`, `Layout`, `contains`, `reverse`, `NewWithTime`, `In`, `TrimSuffix` |
| `parse.dfy` | `Parsing` | `Parse` |
| `bump.dfy` | `Bumping` | `Major`, `Minor`, `Micro`, `Modifier`, `IsTimeVersionFirst`, `NextWithTime` |
| `order.dfy` | `Ordering` | the comparator of `Calvers.Sort`, `Sort` and `Latest` on an array |
| `token_cases.dfy` | `TokenizerCases` | the package's documented tokenizations, derived from the tokenizer |
| `trim_cases.dfy` | `FieldCases` | the documented `TrimPrefix` results and renderings |
| `parse_cases.dfy` | `ParseCases` | the documented parses |
| `bump_cases.dfy` | `BumpCases` | the documented renderings and moves to a new time |

Each loop of the package is a method proved against a specification
function:

- `tokenizeLayout`'s scan becomes `TokenizeLayout`, specified by `Tokenize`;
- `String`'s split and its two rendering loops are specified by `Render`;
- `Parse`'s two walks are specified by `ParseValue`;
- `Layout`, `contains` and `reverse`.

The properties are lemmas about those functions. `Calvers.Sort` works in
place on an array, and so does the model.

## Model

| member | source | states |
|---|---|---|
| Tokens.SymbolInjective | token.go:114-128 | two builtin tokens with the same symbol text are the same token |
| Tokens.BuiltinsAreFields | token.go:114-128 | the builtin table holds exactly the 13 calendar and version tokens |
| Tokens.FieldSymbol | token.go:114-128 | every builtin symbol is at least two characters long |
| Tokens.LayoutTextAppend | calver.go:343-349 | the layout text of two token lists joined is the two texts joined |
| Tokens.TrimCal | token.go:30-44 | success yields a non-empty digit prefix, with prefix + rest equal to the value. YY/MM/WW/DD succeed exactly when the value starts with 1-9, and take two digits when a second digit follows, else one. YYYY takes exactly 4 digits and 0Y/0M/0W/0D exactly 2, failing when they are not there. A value with a line break fails. The error names the symbol and the value. |
| Tokens.TrimVer | token.go:55-66 | MODIFIER takes the whole value and never fails. MAJOR/MINOR/MICRO succeed exactly when the value starts with a digit (and has no line break). They take the maximal digit run: prefix + rest is the value, and the rest does not start with a digit. |
| Tokens.TrimSep | token.go:80-85 | succeeds exactly when the separator is a prefix of the value; yields the separator and the rest, which together make up the value |
| Tokens.TrimPrefix | token.go:30-85 | every token's reader splits the value into prefix + rest |
| Tokens.CalString | token.go:92-106 | a calendar rendering is a non-empty digit string whose value is the date field the symbol names |
| Tokens.CalStringShape | token.go:92-106 | YY/MM/WW/DD render unpadded. 0Y/0M/0W/0D render as exactly two digits. YYYY renders at least four digits, and exactly four below year 10000. |
| Tokens.YYUnpadded | token.go:93 | YY renders the two-digit year with its leading zero stripped: the decimal of the year modulo 100 |
| Tokens.VerString | token.go:108-111 | MAJOR/MINOR/MICRO render as the decimal of their number; MODIFIER renders verbatim |
| Tokens.Lookup | token.go:141-151 | finds a table entry whose symbol is the window, or reports that none has it |
| Tokens.ScanBuiltins | token.go:140-151 | the scan over the table yields the prefix matches of the window and the exact matches of the window and of the window one character shorter |
| Tokens.ScanStep | token.go:135-172 | one scan step moves the (pos, idx) window strictly forward in a well-founded measure, including after the `idx--` retreat. What it emits is the layout text between the old and the new pos. Every token emitted is a builtin or a separator that is non-empty and not a builtin symbol. |
| Tokens.ScanOnce | token.go:152-171 | the loop body's switch computes exactly the step `ScanStep` specifies |
| Tokens.TokenizeLayout | token.go:130-174 | the tokenizer loop returns `Tokenize(layout)`. It never fails. Its tokens' texts joined give back the layout, and every token is a builtin or a proper separator. |
| Tokens.TokenizeText | token.go:130-174 | the tokens read from pos on spell out the layout from pos on |
| Tokens.TokenizeWellFormed | token.go:153-173 | every token emitted is a builtin or a non-empty separator that is not a builtin symbol |
| Tokens.NotBuiltinWhenNoPrefix | token.go:160-162 | a window that prefixes no builtin is not a builtin symbol |
| Tokens.NotBuiltinWhenNoMatch | token.go:169-170 | a window with no exact match is not a builtin symbol |
| Tokens.BuiltinOf | token.go:114-128 | every builtin symbol names a builtin token |
| Clock.In | calver.go:324 | a time moved to a zone keeps its instant and takes the zone |
| Versions.Contains | calver.go:498-505 | true exactly when some layout token has the same symbol text as t |
| Versions.Reverse | calver.go:507-513 | the result is the layout in reverse order |
| Versions.ModifierSymbol | calver.go:289 | comparing token texts with MODIFIER's is the same as being the MODIFIER token |
| Versions.ModsStart | calver.go:279-303 | the trailing part starts at the first index after which every token is a separator or MODIFIER, and the token before it is neither. So the trailing part holds no calendar token, and the panic at calver.go:303 is unreachable. |
| Versions.ModsStartAtMost | calver.go:279-296 | the trailing part starts no later than any point after which only separators and MODIFIER follow |
| Versions.ModsNoCalendar | calver.go:300-303 | the trailing part holds no calendar token, so the `tokenCal` case of its rendering loop is never taken |
| Versions.SplitUnique | calver.go:76-97 | any split of a layout into a base and a trailing part of only separators and MODIFIER, where the base does not end in one, is the split `Base`/`Mods` |
| Versions.SplitLayout | calver.go:76-97 | the split loop of Parse computes `Base` and `Mods`; their concatenation is the layout |
| Versions.SplitReversed | calver.go:275-296 | the split loop of String over the reversed layout yields the reversed base and trailing part (`Base` and `Mods` reversed) |
| Versions.String | calver.go:273-340 | the rendering loops compute `Render` |
| Versions.RenderStep | calver.go:300-337 | one loop step prepends the token's rendering under the trim state. The state stays "trimming" exactly while every token to the right in the part is a version token that renders "0" or "", or a separator. |
| Versions.RenderReversed | calver.go:299-338 | a whole rendering loop prepends the part's rendering to what was rendered before |
| Versions.RenderPartUntrimmed | calver.go:273-340 | without trimming, each token renders in layout order |
| Versions.RenderUntrimmed | calver.go:273-340 | with `trimSuffix` off, `String` is the concatenation of every token's rendering in layout order |
| Versions.FullTextAppend | calver.go:273-340 | the untrimmed rendering of two token lists joined is the two renderings joined |
| Versions.TrimKeepsUpTo | calver.go:306-310 | with trimming on, everything up to and including the last token that is not neutral renders in full |
| Versions.TrimIsPrefix | calver.go:299-338 | the trimmed rendering is a prefix of the untrimmed one; a part of only neutral tokens renders as "" |
| Versions.RenderPartFields | calver.go:305 | the rendering depends only on the version numbers and modifier, not on other fields |
| Versions.RenderSameInstant | calver.go:324 | two versions at the same instant render alike |
| Versions.Layout | calver.go:343-349 | the loop returns the layout text, the concatenation of every token's symbol or separator |
| Versions.NewWithTime | calver.go:41-51 | the layout is the tokenization of the text and spells it back. Numbers are zero and the modifier is empty. The time is `now`, the zone is `now`'s, and trimming is off. |
| Versions.InZone | calver.go:54-58 | only the zone changes |
| Versions.TrimSuffix | calver.go:435-439 | only the trim switch changes |
| Parsing.FullYear | calver.go:114-116 | a year below 2000 has 2000 added; a year of 2000 or more is kept |
| Parsing.ParseValue | calver.go:61-261 | a successful parse keeps cv's layout, zone and trim switch, and its time is the date the base walk read |
| Parsing.LeftoverRefused | calver.go:257-260 | parsing fails with "unparsed" exactly when the walks succeed but leave input unread |
| Parsing.WalkBaseErrors | calver.go:103-225 | the base walk fails only with a field's "no value" error |
| Parsing.WalkModsErrors | calver.go:232-255 | the trailing walk fails only with a field's "no value" error |
| Parsing.WalkBaseCalendar | calver.go:103-144 | the walk keeps the year at 2000 or above. Without calendar tokens it keeps year, month, day and week; without week tokens it keeps the week; without month tokens it keeps the month; without day tokens it keeps the day. |
| Parsing.StepCalendar | calver.go:105-144 | one step keeps the year at 2000 or above; a step on a token other than MM or 0M keeps the month, and one on a token other than DD or 0D keeps the day |
| Parsing.ParsedTime | calver.go:13-17 | a layout without calendar tokens parses to 2000-01-01 in cv's zone. Without a week token, the time is the calendar date of the walk's year (2000 or above), month and day, and a month or day the layout does not read is 1. |
| Parsing.WalkReadsBack | calver.go:145-224 | for a layout of version numbers and separators, walking over the rendering reads back exactly the rendered numbers |
| Parsing.ReadNumber | calver.go:145-201 | a number field takes the digit run at the head of the value and nothing more |
| Parsing.ParseReadsBack | calver.go:61-261 | for a layout of version numbers and separators without trimming, parsing what String wrote gives back the numbers. It keeps the other fields of the receiver and dates the result 2000-01-01. |
| Parsing.SemverReadsBack | calver.go:61-261 | for MAJOR.MINOR.MICRO, parsing the rendering of a version gives back its major, minor and micro |
| Parsing.ReadBase | calver.go:103-225 | the base loop computes `WalkBase` |
| Parsing.ReadToken | calver.go:104-224 | one pass of the base loop's switch computes `BaseStep`: the token's field is read and stored, a year below 2000 made four-digit, a missing number or separator skipped when trimming with a trailing part, and fields zeroed once the input is used up under trimming |
| Parsing.ReadMods | calver.go:232-255 | the trailing loop computes `WalkMods` |
| Parsing.Parse | calver.go:61-261 | the method computes `ParseValue`, working on a copy of the receiver |
| Bumping.Major | calver.go:395-402 | fails exactly when the layout has no MAJOR; otherwise a copy with major one higher and nothing else changed |
| Bumping.Minor | calver.go:405-412 | fails exactly when the layout has no MINOR; otherwise a copy with minor one higher and nothing else changed |
| Bumping.Micro | calver.go:415-422 | fails exactly when the layout has no MICRO; otherwise a copy with micro one higher and nothing else changed |
| Bumping.Modifier | calver.go:425-432 | fails exactly when the layout has no MODIFIER; otherwise a copy with the new modifier and nothing else changed |
| Bumping.IsTimeVersionFirst | calver.go:484-496 | for a tokenizer-made layout, true exactly when the first token is a calendar token |
| Bumping.BumpLowest | calver.go:382-391 | bumps MICRO if present, else MINOR, else MAJOR, and fails exactly when none is present |
| Bumping.EmptyLayoutRender | calver.go:369-371 | an empty layout renders as "", so the rendering never changes and `IsTimeVersionFirst` is never reached with it |
| Bumping.NextWithTime | calver.go:358-392 | fails exactly when `now` is before the version's time (`Older`), or when the rendering, the empty modifier and the absence of MAJOR, MINOR and MICRO leave nothing to move (`CannotBump`). A success has an empty modifier and time `now`. If the rendering changed, the numbers reset to 0 exactly when the layout starts with a calendar token, and are kept otherwise. If it did not change and a modifier was set, nothing is bumped. Otherwise the lowest version field is bumped. |
| Ordering.StrLessIrreflexive | calver.go:470 | Go's string `<` is irreflexive |
| Ordering.StrLessTransitive | calver.go:470 | Go's string `<` is transitive |
| Ordering.StrLessTotal | calver.go:470 | Go's string `<` is total and asymmetric |
| Ordering.AheadIsRankOrFullTie | calver.go:455-472 | the comparator puts a ahead of b exactly when a outranks b, or when the two tie on time and numbers and a's modifier is empty |
| Ordering.OutranksAsymmetric | calver.go:455-472 | the strict rank order is irreflexive and asymmetric |
| Ordering.OutranksTransitive | calver.go:455-472 | the strict rank order is transitive |
| Ordering.ModifierOutranksTransitive | calver.go:465-470 | the modifier order (empty first, then descending text) is transitive |
| Ordering.OutranksTotal | calver.go:455-472 | two versions tie in rank or one outranks the other |
| Ordering.AtLeastPreorder | calver.go:455-472 | "at least as far ahead" is a total preorder |
| Ordering.ChainedSorted | calver.go:454-473 | a list ordered between neighbours is ordered throughout |
| Ordering.Sort | calver.go:454-473 | the array ends ordered descending by time, major, minor and micro. On a full tie an empty modifier comes first, then non-empty modifiers in descending order. The array holds a permutation of its old contents. |
| Ordering.Insert | calver.go:454-473 | inserting the next element keeps the prefix ordered and the contents a permutation |
| Ordering.SwapKeepsInserting | calver.go:454-473 | swapping an element past a neighbour it is ahead of keeps the insertion invariant |
| Ordering.InsertingDone | calver.go:454-473 | the insertion ends with the prefix ordered |
| Ordering.Latest | calver.go:475-481 | fails exactly on an empty list. Otherwise it returns the first element after sorting, which is at least as far ahead as every element. The contents are kept. |
| Ordering.NextOutranks | calver.go:358-392 | a successful `NextWithTime` result outranks the version it came from |
| Ordering.BumpsOutrank | calver.go:395-432 | Major, Minor and Micro results outrank their source. Clearing a modifier outranks too. |
| TokenizerCases.TokenizeYY | token_test.go:80 | "YY" tokenizes to [YY] |
| TokenizerCases.TokenizeYYYY | token_test.go:81 | "YYYY" tokenizes to [YYYY] |
| TokenizerCases.TokenizevYY | token_test.go:82 | "vYY" tokenizes to [Sep "v", YY] |
| TokenizerCases.TokenizeYYv | token_test.go:83 | "YYv" tokenizes to [YY, Sep "v"] |
| TokenizerCases.TokenizeYYDot0D | token_test.go:84 | "YY.0D" tokenizes to [YY, ".", 0D] |
| TokenizerCases.TokenizeYY0D | token_test.go:85 | "YY0D" tokenizes to [YY, 0D] |
| TokenizerCases.TokenizeYYDot0DDotMICRO | token_test.go:86 | "YY.0D.MICRO" tokenizes to [YY, ".", 0D, ".", MICRO] |
| TokenizerCases.TokenizeYYYYDot0MDotMICRO | token_test.go:87 | "YYYY.0M.MICRO" tokenizes to [YYYY, ".", 0M, ".", MICRO] |
| TokenizerCases.TokenizeYYY | token_test.go:88 | "YYY" tokenizes to [YY, Sep "Y"] |
| FieldCases.TrimYYYYCases | token_test.go:44-46 | YYYY takes "2033" from "2033.12.05" and from "2033", and refuses "203" |
| FieldCases.TrimYYCases | token_test.go:47-48 | YY takes "3" from "3.12.05" and "12" from "12.12.05" |
| FieldCases.TrimZeroYCases | token_test.go:49 | 0Y takes "03" from "03.12.05" |
| FieldCases.TrimNumberCases | token_test.go:50-54 | MAJOR takes "3" from "3.7.5", MINOR takes "7" from "7.5" and MICRO takes "5" from "5-dev"; MICRO refuses "dev" |
| FieldCases.TrimModifierSepCases | token_test.go:53-56 | MODIFIER takes all of "-dev"; "." takes "." from ".5" and refuses "3.5" |
| FieldCases.RenderCases | token_test.go:16-24 | on 2002-02-04, ISO week 6, the nine calendar symbols render as "2002", "2", "02", "2", "02", "6", "06", "4", "04" |
| ParseCases.ParseDateCase | calver_test.go:149-155 | "YYYY.0M.0D" reads "2012.12.03" as 2012-12-03 |
| ParseCases.ParseWeekCase | calver_test.go:156-163 | "YYYY.0W.MICRO" reads "2002.06.2" as micro 2 at the start of ISO week 6 of 2002 |
| ParseCases.ParseLeftoverCase | calver_test.go:164-168 | "YYYY.0M" refuses "2012.12.03" because input is left over |
| ParseCases.ParseSemverCase | calver_test.go:169-178 | "MAJOR.MINOR.MICRO" reads "1.2.3" as 1.2.3 on 2000-01-01 |
| ParseCases.ParseSemverModifierCase | calver_test.go:179-188 | "MAJOR.MINOR.MICROMODIFIER" reads "1.2.3" as 1.2.3 with an empty modifier on 2000-01-01 |
| ParseCases.ParseGreedyMonthCase | calver_test.go:189-196 | "YYYY.MMDD.MICRO" reads "2026.123.0" as 2026-12-03, micro 0 |
| ParseCases.ParseGreedyMonthRefused | calver_test.go:197-204 | "YYYY.MM0D.MICRO" refuses "2026.123.0": MM takes "12" and 0D finds only "3" |
| BumpCases.StringSemverCase | calver_test.go:23 | "MAJOR.MINOR.MICRO" shows 1.2.3 as "1.2.3" |
| BumpCases.TrimSuffixCase | calver_test.go:237-239 | "YY.0M.MICRO" with micro 0 in May 2023 shows "23.05" trimmed and "23.05.0" untrimmed |
| BumpCases.NextMicroCase | calver_test.go:102 | at the version's own time "0Y.0M.MICRO" with no modifier bumps micro 3 to 4 |
| BumpCases.NextMinorCase | calver_test.go:104 | at the version's own time "0Y.0M.MINOR" with no modifier bumps minor 2 to 3 |
| BumpCases.NextModifierCase | calver_test.go:107 | at the version's own time a set modifier is cleared and no number moves |
| BumpCases.NextDateOnlyCase | calver_test.go:105 | at the version's own time "YYYY.0M.0D" cannot be bumped |

## Left out

- `New` and `Next` read the clock. They are `NewWithTime` and `NextWithTime` with `now` as a parameter.
- The top-level `Parse(layout, value)` (calver.go:264-270) is `NewWithTime` followed by the `Parse` method. Its clock read is left out with `New`.
- The time library is a `Calendar` parameter of total functions, left uninterpreted:
  - calendar fields of an instant in a zone;
  - `time.Date`, including its normalisation of out-of-range months and days;
  - ISO week numbering;
  - `isoweek.StartDate`.

  Zones are opaque names.
- Go's regular expressions are not modelled as such. The three patterns are digit-prefix functions. The `(.*)$` tail does not match across a line break, so a value containing `'\n'` is refused (`NoNewline`).
- `strconv.Atoi` overflow is not modelled. Numbers are unbounded naturals, so a digit run too long for an `int` parses here where Go reports an error.
- Error texts and the deferred error wrapping are not modelled. Errors are the kinds in `Results.Error`.
- `String`'s rendering loops switch on the token's dynamic type (calver.go:300-337), as the model does on its constructor. Go's split of the layout (calver.go:289) and `Parse` (calver.go:104-224) compare token text, and the model matches on the constructor there too. These agree for tokenizer-made layouts, where a separator is never a builtin symbol (`Tokens.TokenizeWellFormed`).
- The `YYYY.MM0D.MICRO` parse expects 2026-01-23 (calver_test.go:197-204), but `MM` takes two digits whenever they are there, so the code refuses the value. `ParseCases.ParseGreedyMonthRefused` states what the code does.
- Ordering.Sort: `sort.SliceStable` is modelled as an insertion sort with the same comparator. The result is stated as ordered and a permutation, not as the exact stable order, because the comparator holds both ways for two full ties with empty modifiers.
- `clone` and the pointer receivers are values here: every operation returns a new `Calver`, so aliasing does not arise.
- `cmd/` (flags, standard input, printing, exit codes) is not part of this model.
- There is no duplicate-field check: the tokenizer never returns an error, and neither does the model.
- `token.go` names its methods `Token`/`TrimPrefix` while the callers use `token`/`trimPrefix`; they are taken to be the same methods.
