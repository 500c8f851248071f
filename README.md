# tobira980 in Dafny

A verified model of `lib/tobira980.php`, the PHP client for the local HTTPS
interface of an iRobot Roomba 980. The model covers four parts:

- **`PreferenceFlags`** (`flags.dfy`). The packed preference integer holds
  four settings. Carpet boost and cleaning passes come from two lookup
  tables; edge clean and always finish are single inverted bits. Four
  chaining setters update the integer in place with fixed AND/OR masks.
  The class keeps the invariant `Valid()`: the decoded fields are what the
  packed integer decodes to.
- **`Preferences`** (`preferences.dfy`). The preference record holds its
  flags as a `PreferenceFlags` object. Decoding rejects a response without
  `flags`, and encoding passes the other fields through.
- **`WeekSchedule` / `WeekDays`** (`schedule.dfy`).
  - The device sends its schedule as parallel `cycle`/`h`/`m` arrays. The
    library turns them into seven `{active, time}` entries, with `time`
    written as `"H:MM"`, and turns them back with `strtok` and `(int)`.
  - A `WeekDays` view resolves day names such as `"Mon"` or `3`. It then
    writes one field into the shared seven-slot array for each bound day.
- **`Robot`** (`rpc.dfy`).
  - The request envelope `{do, args, id}` and the request counter.
  - The ordered classification of a transport outcome into a result or one
    of the library's exceptions.
  - The `getPassword` retry loop.
  - The fixed (verb, command, args) triple of each facade method.

Supporting modules:

- `failures.dfy` holds the exception kinds and the decoded JSON values.
- `decimal.dfy` holds PHP's integer-to-string conversion, `str_pad`, the
  `(int)` cast of a string, integer `is_numeric` and ASCII `strtolower`.

Parameters of the model:

- The HTTPS exchange is an injected `Transport` outcome per request: a
  failure with the response header lines seen, or a body as `json_decode`
  reads it.
- `time()` is an injected sequence of clock readings.
- `sleep(2)` is a step with no effect.
- The progress callback is a flag, and the model counts its calls.

Two places where the library's code differs from its documented behaviour;
the model follows the code:

- An integer day outside 0..6 given to `parseName` does not end in an
  invalid-parameter error. It reaches `strtolower`, which rejects an
  integer under `strict_types`, so the model yields `TypeError`.
- The setters' clear masks are 16-bit constants. They therefore keep only
  the unrelated bits *within* bits 0..15, not every bit outside the field.
  The model's packed field is 16 bits wide (see "Left out").

## Model

| member | source | states |
|---|---|---|
| Flags.CarpetBoostOption | lib/tobira980.php:25-29 | `CARPET_BOOST_OPTIONS` has an entry exactly for the keys 0, 16 and 80 |
| Flags.CleaningPassesOption | lib/tobira980.php:31-35 | `CLEANING_PASSES_OPTIONS` has an entry exactly for the keys 0, 1024 and 1025 |
| Flags.CarpetBoostKey | lib/tobira980.php:25-29 | the carpet boost table is one-to-one: a mode's key maps back to it, every key for the mode is that key, and keys lie inside bits {16, 64} |
| Flags.CleaningPassesKey | lib/tobira980.php:31-35 | the cleaning passes table is one-to-one, with keys inside bits {1, 1024} |
| Flags.DecodeSettings | lib/tobira980.php:52-60 | decoding is defined exactly when bit 64 implies bit 16 and bit 1 implies bit 1024; carpet boost and cleaning passes are the table entries for `raw & 80` and `raw & 1025`; edge clean and always finish hold exactly when bits 2 and 32 are clear |
| Flags.ZeroFlags | lib/tobira980.php:52-79 | 0 decodes to auto / on / auto / on, and setting performance carpet boost on 0 gives 80 |
| Flags.WithCarpetBoost | lib/tobira980.php:66-79 | the carpet boost masks are defined exactly for the three modes, put the mode's key into `raw & 80` and leave every other bit of the 16 unchanged |
| Flags.WithEdgeClean | lib/tobira980.php:81-89 | bit 2 is clear exactly when edge clean is requested, and no other bit changes |
| Flags.WithCleaningPasses | lib/tobira980.php:91-104 | the cleaning passes masks are defined exactly for the three modes, put the key into `raw & 1025` and change no other bit |
| Flags.WithAlwaysFinish | lib/tobira980.php:106-114 | bit 32 is clear exactly when always finish is requested, and no other bit changes |
| Flags.DecodeWithCarpetBoost | lib/tobira980.php:66-79 | re-decoding after the carpet boost masks gives the new mode and the other three settings unchanged |
| Flags.DecodeWithEdgeClean | lib/tobira980.php:81-89 | re-decoding after the edge clean masks gives the new value and the others unchanged |
| Flags.DecodeWithCleaningPasses | lib/tobira980.php:91-104 | re-decoding after the cleaning passes masks gives the new mode and the others unchanged |
| Flags.DecodeWithAlwaysFinish | lib/tobira980.php:106-114 | re-decoding after the always finish masks gives the new value and the others unchanged |
| Flags.PreferenceFlags.constructor | lib/tobira980.php:44-50 | the object holds the given packed integer and settings |
| Flags.PreferenceFlags.Decode | lib/tobira980.php:52-60 | fails (PHP type error on the missing table key) exactly when the integer does not decode; otherwise a fresh, valid object whose `encode()` returns the integer unchanged |
| Flags.PreferenceFlags.Encode | lib/tobira980.php:62-64 | the packed integer returned decodes to the object's current settings |
| Flags.PreferenceFlags.SetCarpetBoost | lib/tobira980.php:66-79 | a mode outside the table raises invalid-parameter and changes nothing; otherwise the integer gets the carpet boost masks, only the carpet boost field changes, the object stays valid and is returned |
| Flags.PreferenceFlags.SetEdgeClean | lib/tobira980.php:81-89 | the integer gets the edge clean masks, only the edge clean field changes, the object stays valid and is returned |
| Flags.PreferenceFlags.SetCleaningPasses | lib/tobira980.php:91-104 | a mode outside the table raises invalid-parameter and changes nothing; otherwise the masks apply, only the cleaning passes field changes, the object stays valid and is returned |
| Flags.PreferenceFlags.SetAlwaysFinish | lib/tobira980.php:106-114 | the integer gets the always finish masks, only the always finish field changes, the object stays valid and is returned |
| Prefs.DecodedSettings | lib/tobira980.php:132-142 | a response without flags raises invalid-response; flags that do not decode raise PHP's type error; otherwise the settings are the decoding of the flags |
| Prefs.Decode | lib/tobira980.php:132-142 | fails exactly as `DecodedSettings` says; otherwise a fresh valid flags object whose settings are the decoded ones, and encoding the record returns the response's flags, language, time zone and name unchanged |
| Prefs.Encode | lib/tobira980.php:144-151 | the encoded flags decode to the object's current settings; language, time zone and name are copied |
| Prefs.ResponseOfArgs | lib/tobira980.php:132-151 | what `encode()` returns decodes again to the same settings |
| Decimal.NatToStringCanonical | lib/tobira980.php:215 | `(string)` of a natural number is a numeral without superfluous leading zeros |
| Decimal.IntToStringShape | lib/tobira980.php:215 | `(string)` of an integer is non-empty, has no ':', and is a canonical numeral, with a minus sign in front for negatives |
| Decimal.PadLeft2Shape | lib/tobira980.php:195-215 | `str_pad` to width 2 keeps the text as its suffix and prepends only zeros, up to length 2 |
| Decimal.DigitsOfNatToString | lib/tobira980.php:215 | the digits of `(string)$n` have the value n |
| Decimal.NatToStringOfDigits | lib/tobira980.php:215 | a canonical numeral is `(string)` of its value |
| Decimal.IntCastOfIntToString | lib/tobira980.php:229-230 | `(int)` reads `(string)$i` back as i, for every integer |
| Decimal.IntCastOfPadded | lib/tobira980.php:215-230 | `(int)` reads the zero-padded `(string)$i` back as i, for every integer |
| Decimal.NatToString | lib/tobira980.php:215 | `(string)` of a natural number; a definition without its own contract, whose properties are `NatToStringCanonical`, `DigitsOfNatToString` and `NatToStringOfDigits` |
| Decimal.IntToString | lib/tobira980.php:215 | `(string)` of an integer; a definition without its own contract, whose properties are `IntToStringShape` and `IntCastOfIntToString` |
| Decimal.PadLeft2 | lib/tobira980.php:195-215 | `str_pad(.., 2, "0", STR_PAD_LEFT)`; a definition without its own contract, whose properties are `PadLeft2Shape` and `IntCastOfPadded` |
| Decimal.IntCast | lib/tobira980.php:171-172 | the `(int)` cast of a string (white space, sign, digit prefix); a definition without its own contract, whose properties are `IntCastOfIntToString`, `IntCastOfPadded` and `IntCastOfDigits` |
| Decimal.IsIntegerString | lib/tobira980.php:171 | `is_numeric` of an integer string: an optional sign followed by at least one digit; a definition without its own contract |
| Decimal.IntCastOfDigits | lib/tobira980.php:229-230 | `(int)` reads a string of digits as its value |
| Decimal.TwoDigitsRoundTrip | lib/tobira980.php:215-230 | two digits read with `(int)` and padded again are the same two digits |
| Decimal.ToLower | lib/tobira980.php:173 | `strtolower` keeps the length, leaves no ASCII capital, turns each capital into its small letter and keeps every other character |
| Schedule.FormatTime | lib/tobira980.php:195-215 | the text `$h . ":" . str_pad((string)$m, ...)`; a definition without its own contract, whose properties are `ParseFormatTime`, `FormatParseTime` and `FormatIsWellFormed` |
| Schedule.HourToken | lib/tobira980.php:229 | what `strtok($time, ":")` returns; a definition without its own contract, whose property is `TokensOfJoin` |
| Schedule.MinuteToken | lib/tobira980.php:230 | what the following `strtok("")` returns; a definition without its own contract, whose property is `TokensOfJoin` |
| Schedule.HourField | lib/tobira980.php:229 | `(int)strtok($time, ":")`; a definition without its own contract, whose property is `ParseFormatTime` |
| Schedule.MinuteField | lib/tobira980.php:230 | `(int)strtok("")`; a definition without its own contract, whose property is `ParseFormatTime` |
| Schedule.Piece | lib/tobira980.php:215 | `(string)` of an array element, "" for a missing index (PHP null); a definition without its own contract, whose property is `MissingDay` |
| Schedule.UpToColon | lib/tobira980.php:229 | the length of the part before the first ':', which contains no ':' |
| Schedule.TokensOfJoin | lib/tobira980.php:229-230 | `strtok` splits "A:B" into A and then B when A is non-empty and has no ':' |
| Schedule.ParseFormatTime | lib/tobira980.php:215-230 | splitting the text `decode` writes for (h, m) gives back h and m, for every pair of integers |
| Schedule.FormatParseTime | lib/tobira980.php:215-230 | a canonical "H:MM" is the text written for its own hour and minute |
| Schedule.FormatIsWellFormed | lib/tobira980.php:195-215 | a natural hour and a minute below 100 give a canonical "H:MM" |
| Schedule.DecodeEntries | lib/tobira980.php:210-219 | exactly seven entries; day d is active exactly when `cycle[d]` is "start"; with all three arrays present its time is `h[d]` + ":" + the zero-padded `m[d]` |
| Schedule.MissingDay | lib/tobira980.php:212-216 | a day missing from all three arrays decodes to an inactive entry with the text ":00" |
| Schedule.EncodeEntries | lib/tobira980.php:221-233 | three arrays of seven elements each |
| Schedule.NormalizedCycle | lib/tobira980.php:214-228 | every day is "start" or "none", and "start" exactly where the response said "start" |
| Schedule.EncodeDecodeWire | lib/tobira980.php:210-233 | encoding a decoded response returns its first seven hours and minutes, with `cycle` normalised to "start"/"none" |
| Schedule.DecodeEncodeEntries | lib/tobira980.php:210-233 | decoding an encoded schedule returns it when every time is a canonical "H:MM" |
| Schedule.NameIndex | lib/tobira980.php:160-168 | the `NAMES` lookup: an abbreviation found gives its index in sun..sat, and an abbreviation in the table is always found |
| Schedule.IndexFrom | lib/tobira980.php:160-168 | the search from index k finds exactly the index at or after k whose abbreviation is given |
| Schedule.ParseName | lib/tobira980.php:170-177 | an integer 0..6 or an integer string with value 0..6 maps to that value; otherwise (including an integer string outside 0..6) the lower-cased abbreviation's index; any other string raises invalid-parameter naming it; an integer outside 0..6 raises PHP's type error |
| Schedule.DayNameExamples | lib/tobira980.php:170-177 | "Mon", "mon" and 1 resolve to 1; "xyz" raises invalid-parameter; 9 fails |
| Schedule.ParseAll | lib/tobira980.php:179-184 | succeeds exactly when every name parses, giving their indices in order; otherwise fails with the error of the first name that does not parse |
| Schedule.WeekSchedule.Decode | lib/tobira980.php:210-219 | the loop fills a fresh seven-slot array with exactly the entries `DecodeEntries` gives |
| Schedule.WeekSchedule.Encode | lib/tobira980.php:221-233 | the loop's three arrays are exactly `EncodeEntries` of the current entries |
| Schedule.WeekSchedule.Day | lib/tobira980.php:235-237 | a fresh view of this schedule bound to the one parsed day, or the parse error |
| Schedule.WeekSchedule.Days | lib/tobira980.php:239-241 | a fresh view of this schedule bound to the parsed days in order, or the first parse error |
| Schedule.WeekSchedule.AllDays | lib/tobira980.php:243-245 | a fresh view of this schedule bound to 0..6 in order |
| Schedule.WeekDays.Empty | lib/tobira980.php:179-180 | a view of the given schedule with no days bound yet |
| Schedule.WeekDays.Bind | lib/tobira980.php:179-184 | the constructor's loop appends the parsed days in order, giving `ParseAll`'s result; a day that does not parse abandons the view with its error |
| Schedule.WeekDays.SetActive | lib/tobira980.php:186-191 | exactly the bound days get the new `active`; their times, and every unbound day, are unchanged |
| Schedule.WeekDays.SetTime | lib/tobira980.php:193-198 | exactly the bound days get the formatted time, which reads back as (hours, minutes); their `active` and every unbound day are unchanged |
| Schedule.WireToJson | lib/tobira980.php:344-346 | the `set week` argument is an object with exactly `cycle`, `h` and `m`, each an array holding the wire's values in order |
| Prefs.ArgsToJson | lib/tobira980.php:352-354 | the `set prefs` argument is an object with exactly the four encoded fields |
| Failures.Truthy | lib/tobira980.php:292 | PHP truthiness of a decoded value: null, false, 0, "", "0" and [] are falsy, every object is truthy; a definition without its own contract |
| Rpc.Contains | lib/tobira980.php:287 | `preg_match` of a literal pattern: true exactly when the pattern occurs at some position |
| Rpc.RequestArgs | lib/tobira980.php:262-265 | the args are the command, followed by the arguments exactly when they are given |
| Rpc.Classify | lib/tobira980.php:283-301 | no header lines means no-response; " 401 " in the first header line means auth-required; other transport failures mean invalid-response; an undecodable or falsy body means invalid-response; the result is `ok` exactly when the body is an object with `ok`; request-not-ok only for a truthy body; never password-timeout or invalid-parameter |
| Rpc.ErrCodeCarried | lib/tobira980.php:295-299 | without `ok`, an integer `err` is carried in the request-not-ok error, and an absent or null `err` gives request-not-ok without a code |
| Rpc.StatusLineExamples | lib/tobira980.php:283-290 | a "401 Unauthorized" status line means auth-required, a 500 one means invalid-response |
| Rpc.ClassifyExamples | lib/tobira980.php:283-301 | no answer means no-response; `{"err": 17}` gives request-not-ok with code 17; `{"ok": null}` returns null; an undecodable body means invalid-response |
| Rpc.PasswdValue | lib/tobira980.php:308 | the password read from the answer is exactly its string `passwd` field |
| Rpc.PasswordOutcome | lib/tobira980.php:304-318 | a last attempt refused for authentication ends in password-timeout; any other error propagates unchanged; an answer with a string `passwd` returns it, and any other answer fails the string return type |
| Rpc.Attempts | lib/tobira980.php:305-316 | at least one attempt and no more than the trace holds; every attempt before the last was refused for authentication and had its following clock reading before the deadline; the last was not refused or had its reading at or past the deadline |
| Rpc.PasswordResult | lib/tobira980.php:304-318 | the loop times out exactly when every attempt it made was refused for authentication; a password it returns is the string `passwd` of some answer |
| Rpc.OnlyAuthRetried | lib/tobira980.php:306-316 | an answer other than auth-required on the first attempt ends the loop after that one attempt |
| Rpc.RefusedTimesOut | lib/tobira980.php:305-317 | a device that refuses every attempt ends in password-timeout, right after the first clock reading at or past the deadline |
| Rpc.CallOf | lib/tobira980.php:320-402 | getters send "get" without arguments, setters send "set" with arguments, and exactly the five motion commands use "cmd" |
| Rpc.CallOfInjective | lib/tobira980.php:320-402 | no two facade calls send the same request |
| Rpc.Op | lib/tobira980.php:376-394 | the motion argument is the object `{"op": name}` |
| Rpc.Robot.constructor | lib/tobira980.php:256-259 | the session holds the address and the optional password, with the counter at 1 |
| Rpc.Robot.Request | lib/tobira980.php:261-302 | the posted envelope is (verb, command plus optional args, the previous counter), with the stored password, if set, as the password of the fixed basic-auth user `user`; the counter moves on by exactly one whatever the outcome; the result is the outcome's classification |
| Rpc.Robot.GetPassword | lib/tobira980.php:304-318 | makes exactly `Attempts` requests with consecutive ids, each `get passwd`; the result is `PasswordResult`; the stored password changes only on a successful answer, to its `passwd`; the progress callback runs once per auth-required answer |
| Rpc.Robot.Perform | lib/tobira980.php:320-402 | a facade method posts its fixed (verb, command, args) with the next id and returns the classification |
| Rpc.Robot.SendWeek | lib/tobira980.php:344-346 | `setWeek` posts `set week` to the robot's address with the stored password, the next id and the schedule's encoding as its argument |
| Rpc.Robot.SendPreferences | lib/tobira980.php:352-354 | `setPreferences` posts `set prefs` to the robot's address with the stored password, the next id and the record's encoding as its argument |

## Left out

- Flags.Raw: the model's packed field is 16 bits wide. In PHP the AND masks (65455, 65471, 65533, 64510, 65534, 65503) also clear any bit at 16 or above, and a flags integer outside 0..65535 is not modelled.
- The HTTPS exchange is not modelled. That covers `file_get_contents`, the stream and SSL context options, the three-second timeout, and `$http_response_header`. It is I/O, so each request receives its outcome as a parameter; the basic-auth URL is kept only as the password carried in `Posted.authPassword`.
- `json_encode` and `json_decode` are library calls. Their text is represented by decoded values, and JSON numbers are integers only (no floats).
- Real `time()` and `sleep(2)` are not modelled. The clock is an injected sequence of readings, and sleeping has no effect.
- Rpc.Robot.GetPassword: requires the injected clock's last reading to be at or past the deadline. That makes the trace long enough for the loop to end within it.
- Rpc.Robot.GetPassword: a `passwd` that is present but not a string is stored as None; PHP stores the value itself before the return type rejects it.
- Rpc.Robot.Request: the counter is an unbounded integer; PHP's conversion to float past `PHP_INT_MAX` is not modelled.
- `getWeek` and `getPreferences` are modelled only by their request triple. Converting the JSON answer into `ScheduleWire` or `PrefsResponse` depends on PHP's conversion of arbitrary JSON values to strings and is not modelled.
- Prefs.DecodedSettings: `lang`, `timezone` and `name` are assumed to have the types the constructor demands; PHP's type error for a wrong type is not modelled.
- Schedule.ScheduleWire: `cycle` holds strings and `h`/`m` hold integers; other JSON values in those arrays are not modelled.
- Schedule.ParseName: `is_numeric` is modelled for integer strings only (an optional sign and digits); leading or trailing white space, fractions and exponents are not modelled, and neither are exponent forms in `(int)`.
- Exception messages are not modelled; only the exception kind and, for request-not-ok, the code are.
- `tools/send_command.php` and `tools/get_password.php` are not part of this model. They parse command-line options, print, and set exit codes around the library calls.
