# A Dafny model of the profile service's logging and validation core

The profile service is a Go HTTP service. Its logger is zap, and it can attach
a Sentry sink to it. This project models the logic at the centre of that
service and proves what the code promises about it.

- **The Sentry zap core** (`internal/log/sentry.go`). It gates entries by level and
  decodes zap fields back into values. It builds a Sentry scope (a level, tags
  and extras) and sends each entry to exactly one client operation. `Sync`
  flushes with a floor of three seconds.
- **The level table** (`internal/log/types.go`) and **the Temporal adapter**
  (`internal/log/temporal.go`).
- **The validation result accumulator** (`common/validation/types.go`): a list of
  shared, named field errors that is searched, then appended to or added to in place.
- **The validators** (`common/validation/basic.go`, `wrappers.go`): the password and
  anti-phishing-code rune loops, the length gates, the digits-only check
  through a model of `strconv.ParseUint`, and the borrow normalisation of `diff`.
- **Config, server shutdown and middleware** (`internal/config/config.go`,
  `internal/api/server.go`, `internal/api/middleware.go`).

## Layout

- `go_lib.dfy` (`Optional`, `GoLib`): the Go library behaviour the core uses. This covers `strings.HasPrefix`, `TrimPrefix`, `Contains` and `TrimSpace`, UTF-8 byte length, and `copy`.
- `log_model.dfy` (`LogModel`): zap levels, field types, fields, entries and errors (including `PanicWrapper`). It also has the zap field constructors, used to state round trips.
- `field_value.dfy` (`FieldValue`): `fieldValueAsInterface`, with Go's integer conversions written out as explicit truncations.
- `sentry_spec.dfy` (`SentrySpec`): the core's decisions as functions, and the lemmas about them.
- `sentry_core.dfy` (`SentryCore`): the core itself, as a class. Its client is a class `SentryClient` that records every call in a ghost log. `ApplyFieldsToScope`, `ApplyTagsToScope`, `CreateScope` and `Write` are proved equal to the `SentrySpec` functions `ExtrasFrom`, `TagsFrom`, `ScopeFor` and `WriteSpec`. The `CopyTags` loop is proved to return a map equal to its input. `Check`, `Sync`, `Clone`, `With` and `NewSentryCore` state their results directly.
- `log_levels.dfy`, `temporal.dfy`, `validation_types.dfy`, `validation_basic.dfy`, `validation_wrappers.dfy`, `config.dfy`, `api_server.dfy`, `api_middleware.dfy`: one module per remaining source file.

Values the code gets from outside become parameters:
- the `%v` rendering of tag values (`sprintV`);
- the regular expressions (`Patterns`);
- the Unicode category tables (`RuneClasses`);
- the result of `sentry.NewClient`;
- the outcome of each client's flush;
- `BasicAuth`'s parse;
- the error Echo's `c.JSON` returns when writing a response (`Context.writeFailure`), and the result of the next handler;
- the dev-mode constant.

## Model

| member | source | states |
|---|---|---|
| SentrySpec.LevelToSentryLevel | internal/log/sentry.go:241-260 | Specification function for levelToSentryLevel, one branch per case of the switch, with the panic as a Failure. It has no contract of its own; LevelMapping states its properties. |
| SentrySpec.LevelMapping | internal/log/sentry.go:241-260 | Debug, Info, Warn and Error map to debug, info, warning and error, and no other level maps to those. DPanic, Panic and Fatal all map to fatal. Every other level is a panic. |
| FieldValue.Unsigned | internal/log/sentry.go:297-304 | `uintN(x)` is in range, agrees with x modulo 2^N, and is x itself when x is already in range. A negative x down to -2^N wraps to x + 2^N. |
| FieldValue.Signed | internal/log/sentry.go:282-287 | `intN(x)` is in the two's-complement range, agrees with x modulo 2^N, and is x itself when in range. |
| FieldValue.FieldValueAsInterface | internal/log/sentry.go:262-314 | The decoder of fieldValueAsInterface, one case per kind of the switch. It has no contract of its own. UnknownKindsFail, SlotKindsDecode, NilErrorFieldFails, the round-trip lemmas and IntegerKindsTruncate state its properties. |
| FieldValue.UnknownKindsFail | internal/log/sentry.go:262-314 | Decoding fails with "unknown field type" exactly for the kinds the switch does not list, Skip included. |
| FieldValue.SlotKindsDecode | internal/log/sentry.go:266-306 | Bool, Duration, float, integer and String kinds always decode, whatever the Interface slot holds. |
| FieldValue.NilErrorFieldFails | internal/log/sentry.go:311-314 | A Skip field built from a nil error does not decode. |
| FieldValue.BoolRoundTrip | internal/log/sentry.go:266-267 | A zap Bool field decodes to its boolean. |
| FieldValue.BoolIsIntegerOne | internal/log/sentry.go:266-267 | A Bool field decodes as `Integer == 1`, so a slot of 2 reads as false. |
| FieldValue.SignedRoundTrips | internal/log/sentry.go:280-287 | Int64, Int32, Int16 and Int8 fields decode back to any value within their width. |
| FieldValue.UnsignedRoundTrips | internal/log/sentry.go:297-304 | Uint64 down to Uint8 fields decode back to any value within their width; uint64 passes through the int64 slot. |
| FieldValue.AsInt64Unsigned | internal/log/sentry.go:297-298 | Reading a uint64 stored in the int64 slot as unsigned gives the original value. |
| FieldValue.FloatBitsRoundTrip | internal/log/sentry.go:276-279 | Float64 and Float32 fields give back their bit pattern unchanged. |
| FieldValue.StringRoundTrip | internal/log/sentry.go:288-289 | A String field decodes to its string slot. |
| FieldValue.ErrorRoundTrip | internal/log/sentry.go:309-310 | A NamedError field with a non-nil error decodes to that error. |
| FieldValue.IntegerKindsTruncate | internal/log/sentry.go:282-304 | For any slot, Int32, Int8 and Uint16 give the in-range value congruent to the slot modulo 2^width. |
| SentrySpec.IsExtraKey | internal/log/sentry.go:165-167 | The extras filter. It has no contract of its own. TagKeysAreExtraKeys and KeyClassificationExamples state its properties. |
| SentrySpec.IsTagKey | internal/log/sentry.go:185 | The tag test. It has no contract of its own. TagKeysAreExtraKeys and TagNameNeverEmpty state its properties. |
| SentrySpec.TagName | internal/log/sentry.go:186 | The tag name `key[4:]`. It has no contract of its own. TagNameNeverEmpty and TagNameInjective state its properties. |
| SentrySpec.ScopeFields | internal/log/sentry.go:161-163 | The fields the scope loops walk. It has no contract of its own. ScopeFieldsAreCoreFields states its property. |
| SentrySpec.TagNameNeverEmpty | internal/log/sentry.go:185-191 | A key with the tag marker gives the tag `key[4:]`, which is never empty, so the `tag != ""` test always passes. |
| SentrySpec.TagKeysAreExtraKeys | internal/log/sentry.go:165-186 | Tag-marked keys pass the extras filter: the filter tests "zapfield_prefix", not the tag marker. |
| SentrySpec.ScopeFieldsAreCoreFields | internal/log/sentry.go:161-183 | `copy` into a nil slice copies nothing, so the scope loops see only the core's own fields. |
| SentrySpec.ExtrasFrom | internal/log/sentry.go:164-174 | Specification function for the extras loop of applyFieldsToScope. Its properties are in ExtrasFromContents, ExtrasLastWriteWins and ExtrasFromFailure. |
| SentrySpec.ExtrasOf | internal/log/sentry.go:160-174 | The extras loop from an empty map. It has no contract of its own. ExtrasFromContents, ExtrasLastWriteWins and UndecodableCoreFieldBlocksScope state its properties. |
| SentrySpec.ExtrasFromContents | internal/log/sentry.go:164-174 | When the extras loop succeeds, a key is present iff some later field with that key passes the filter. Its value is the decoded value of the last such field. |
| SentrySpec.ExtrasLastWriteWins | internal/log/sentry.go:164-174 | The extras hold the filtered keys only, each with the value of its last field: later duplicates overwrite earlier ones. |
| SentrySpec.ExtrasFromFailure | internal/log/sentry.go:165-171 | The extras loop fails iff some filtered field does not decode, and then with the first such failure. |
| SentrySpec.UndecodableCoreFieldBlocksScope | internal/log/sentry.go:168-206 | A core field that passes the filter but does not decode makes every scope fail. |
| SentrySpec.SkipFieldIsUndecodable | internal/log/sentry.go:311-314 | A Skip core field with an ordinary key is such a field. |
| SentrySpec.TagsFrom | internal/log/sentry.go:184-196 | Specification function for the tags loop of applyTagsToScope. Its properties are in TagsFromDefined, TagsFromContents and TagsContents. |
| SentrySpec.TagsOf | internal/log/sentry.go:179-198 | `scope.SetTags(s.tags)` and then the tags loop. It has no contract of its own. TagsNeverFailAfterExtras and TagsContents state its properties. |
| SentrySpec.TagsFromDefined | internal/log/sentry.go:184-196 | The tags loop fails only on a tag-marked field that does not decode. |
| SentrySpec.TagsNeverFailAfterExtras | internal/log/sentry.go:204-209 | Every tag field is also an extra, so once the extras succeed the tags cannot fail. |
| SentrySpec.TagsFromContents | internal/log/sentry.go:180-196 | A tag comes either from the static tags or from the last marked field with that tag name, rendered with `%v`. |
| SentrySpec.TagNameInjective | internal/log/sentry.go:185-186 | Two marked keys with the same tag name are the same key. |
| SentrySpec.TagsContents | internal/log/sentry.go:179-198 | The tags are the static tags, overridden by the rendered value of the last marked field of each name. |
| SentrySpec.ScopeIgnoresCallSiteFields | internal/log/sentry.go:159-183 | The scope does not depend on the call-site fields at all. |
| SentrySpec.ScopeFor | internal/log/sentry.go:200-211 | Specification function for createScope. ScopeShape and ScopeIgnoresCallSiteFields state its properties. |
| SentrySpec.ScopeShape | internal/log/sentry.go:200-211 | For a named level, the scope fails exactly when a filtered core field does not decode. Otherwise it carries the mapped level, the extras and the tags. |
| SentrySpec.FindField | internal/log/sentry.go:143-150 | Specification function for findField. FindFieldFirst states its properties. |
| SentrySpec.FindFieldFirst | internal/log/sentry.go:143-150 | `findField` finds the first field with the key, and finds nothing iff no field has it. |
| SentrySpec.ErrorFromFields | internal/log/sentry.go:152-157 | Specification function for getErrorFromFields. ErrorFromFieldsChoice states its properties. |
| SentrySpec.ErrorFromFieldsChoice | internal/log/sentry.go:152-157 | The reported error is the first "_error" field's error when that field is ErrorType. Otherwise it is an error made from the entry message. |
| SentrySpec.WriteSpec | internal/log/sentry.go:213-239 | Specification function for Write: its outcome and the client calls it makes. The Write lemmas below state its properties. |
| SentrySpec.WriteCallsAtMostOnce | internal/log/sentry.go:213-239 | A Write that completes makes exactly one client call; a Write that fails makes none. |
| SentrySpec.WriteLowSeverityCapturesMessage | internal/log/sentry.go:232-234 | Debug, Info and Warn entries go to CaptureMessage with the entry's message, no hint, and the mapped level. |
| SentrySpec.WriteErrorCapturesException | internal/log/sentry.go:220-228 | An Error entry about an ordinary error goes to CaptureException at level error, with the message as hint data. |
| SentrySpec.WriteErrorRecoversPanicWrapper | internal/log/sentry.go:220-224 | An Error entry about a `*PanicWrapper` goes to Recover with the scope level raised to fatal. |
| SentrySpec.WritePanicLevelsRecover | internal/log/sentry.go:229-231 | Panic and DPanic entries go to Recover at level fatal. |
| SentrySpec.WriteFatalIsRejected | internal/log/sentry.go:213-236 | A Fatal entry is never reported: Write returns the "unknown level" error, or the scope's failure. |
| SentrySpec.WriteScopeFailureMakesNoCall | internal/log/sentry.go:214-217 | When scope building fails, Write returns that failure and calls nothing. |
| SentrySpec.UserIdScenario | internal/log/sentry.go:159-239 | A worked example, not a general property: a core with field user_id="42" writing an Error entry with an "_error" field makes one exception capture, with extras {user_id: "42"} and the static tags. |
| SentrySpec.KeyClassificationExamples | internal/log/sentry.go:165-186 | Examples, not a general property. Sample keys: "_x" is dropped, "ErRoR" is dropped, "errors" is kept, and a marked key is both a tag and an extra. |
| SentryCore.SentryCore.Check | internal/log/sentry.go:99-104 | The core is added to the checked entry iff it is enabled for the entry's level; otherwise the checked entry comes back unchanged. |
| SentryCore.SentryCore.Enabled | internal/log/sentry.go:106-108 | The level test of Enabled. It has no contract of its own; EnabledUpwardClosed, EnabledAtInfo and Check state its properties. |
| SentryCore.EnabledUpwardClosed | internal/log/sentry.go:106-108 | A core enabled at one level is enabled at every more severe level. |
| SentryCore.EnabledAtInfo | internal/log/sentry.go:106-108 | The zap order is Debug<Info<Warn<Error<DPanic<Panic<Fatal. A core at Info rejects only Debug. |
| SentryCore.EffectiveFlushTimeout | internal/log/sentry.go:82-85 | The kept timeout is at least 3s and at least the configured one, and is one of the two. |
| SentryCore.DefaultOptionsFlushFloor | internal/log/sentry.go:62-85 | Options from newSentryOptions (timeout 0) give a 3s flush timeout. |
| SentryCore.NewSentryOptions | internal/log/sentry.go:62-74 | The DSN and environment are passed through, and debug is on iff the mode is dev. The timeout is 0 and the tags are exactly {service: serviceName}. |
| SentryCore.CopyTags | internal/log/sentry.go:93-95 | The range loop produces a map equal to its source. |
| SentryCore.NewSentryCore | internal/log/sentry.go:77-97 | A client error is returned with no core. Otherwise the fresh core has the client, the minimum level, a copy of the tags, no fields, and the floored timeout. |
| SentryCore.SentryCore.Sync | internal/log/sentry.go:110-115 | Sync makes one Flush call with the core's timeout. It fails with "flush failed" iff the flush does not deliver. |
| SentryCore.SentryCore.Clone | internal/log/sentry.go:121-141 | The fresh core keeps the client, the level and equal tags. Its fields are exactly the new fields, because the parent's are lost, and its flush timeout is zero. |
| SentryCore.SentryCore.With | internal/log/sentry.go:117-119 | The same as Clone. |
| SentryCore.SentryCore.ApplyFieldsToScope | internal/log/sentry.go:159-177 | The loop's result equals the extras function over the core's fields, merged into the scope, or the first decode failure. |
| SentryCore.SentryCore.ApplyTagsToScope | internal/log/sentry.go:179-198 | The loop's result equals the tags function, starting from the scope's tags plus the static tags, or the first decode failure. |
| SentryCore.SentryCore.CreateScope | internal/log/sentry.go:200-211 | The result equals ScopeFor: the mapped level, then the extras, then the tags. |
| SentryCore.SentryCore.Write | internal/log/sentry.go:213-239 | The outcome and the calls appended to the client's log are exactly those of WriteSpec. |
| LogLevels.GetZapLevel | internal/log/types.go:16-53 | The result is always Debug, Info, Warn or Error, and any name outside the table gives Info. |
| LogLevels.GetZapLevelNames | internal/log/types.go:8-53 | The four names give their levels; "", "fatal" and "DEBUG" give Info. |
| LogLevels.GetZapLevelInverse | internal/log/types.go:16-21 | Debug, Warn and Error each come from exactly one name. |
| LogLevels.GetZapLevelOrder | internal/log/types.go:16-22 | The four names map to strictly increasing levels, and nothing maps to DPanic or above. |
| Temporal.Convert | internal/log/temporal.go:50-56 | A Field passes through unchanged; any other element becomes Any("unknown", v). |
| Temporal.TemporalLogger.Fields | internal/log/temporal.go:44-60 | One converted field per element, in order. Empty input gives empty output. |
| Temporal.TemporalLogger.Debug | internal/log/temporal.go:24-27 | The wrapped logger gets one Debug call with msg and the single field Any("unknown", keyvals). |
| Temporal.TemporalLogger.Info | internal/log/temporal.go:29-32 | The same, at Info. |
| Temporal.TemporalLogger.Warn | internal/log/temporal.go:34-37 | The same, at Warn. |
| Temporal.TemporalLogger.Error | internal/log/temporal.go:39-42 | The same, at Error. |
| ValidationTypes.IndexOfName | common/validation/types.go:153-158 | The first error with the name, or the list length when there is none. |
| ValidationTypes.IndexOfNameAt | common/validation/types.go:192-197 | The first error with the name and index, or the list length. |
| ValidationTypes.NewResult | common/validation/types.go:42-47 | A fresh result with no details, no code and no errors, which is therefore valid. |
| ValidationTypes.Result.IsValid | common/validation/types.go:135-137 | The validity test. It has no contract of its own. The method clauses state how each mutator affects it: AddFieldError and AddFieldErrorWithData make a result invalid, AddCode and AddMetaInfo keep validity as it was, and AddResult keeps it iff the other result has no errors. |
| ValidationTypes.Result.AddResult | common/validation/types.go:139-141 | The other result's error references are appended in order. Nothing else changes, so the result stays valid iff it was valid and the other has no errors. |
| ValidationTypes.Result.AddMetaInfo | common/validation/types.go:144-150 | Meta is created on first use and only the key is set. The receiver is returned, and validity is unchanged. |
| ValidationTypes.Result.AddFieldError | common/validation/types.go:152-164 | On a known name, `ed` is appended to the first error with that name and the list is unchanged. Otherwise a new Error{name, [ed]} is appended at the end. No other codes change, unique names stay unique, and the result is invalid afterwards. |
| ValidationTypes.Result.AddFieldErrorWithData | common/validation/types.go:191-206 | The same, matching on name and index together. Data is stored only when a new error is created. The result is invalid afterwards. |
| ValidationTypes.Result.AddDetails | common/validation/types.go:208-211 | Details become the formatted text and the receiver is returned. |
| ValidationTypes.Result.AddCode | common/validation/types.go:213-216 | Only Code is set, and the receiver is returned; validity is unchanged, since the code plays no part in it. |
| ValidationTypes.UnmarshalError | common/validation/types.go:49-54 | Code "not_implemented", details are the error text, and there are no field errors. |
| ValidationTypes.DBOperationError | common/validation/types.go:89-94 | The same as UnmarshalError. |
| ValidationTypes.CaptchaError | common/validation/types.go:103-108 | Code "captcha_error", details are the error text. |
| ValidationTypes.NoCodeError | common/validation/types.go:112-116 | No code, details are the error text. |
| ValidationTypes.CodeError | common/validation/types.go:119-124 | The given code and the error text; valid iff the text is empty. |
| ValidationTypes.BothEmailAndPhoneProvided | common/validation/types.go:96-101 | Its fixed details and code; never valid. |
| ValidationTypes.UnmarshalFieldName | common/validation/types.go:71-74 | The `field=` capture, or "unknown" when there is none. |
| ValidationTypes.UnmarshalMessage | common/validation/types.go:76-79 | The `internal=` capture, or the whole error text. |
| ValidationTypes.UnmarshalCodedError | common/validation/types.go:65-87 | Exactly one field error, with the fallback name and exactly one code carrying the fallback message, which makes the result invalid. |
| ValidationTypes.UnmarshalDetailedError | common/validation/types.go:61-63 | unmarshalError with code "not_implemented". |
| ValidationTypes.InvalidIPAddress | common/validation/types.go:316-321 | The message is the fixed text followed by the address, which can be read back from it. |
| ValidationTypes.FixedErrorDetailsWellFormed | common/validation/types.go:218-426 | Each of the 29 fixed error details, and InvalidIPAddress for every address, has a non-empty message and a non-empty code. |
| ValidationTypes.WrapperErrorCodesDistinct | common/validation/types.go:316-342 | The codes of the three details the wrappers attach are pairwise distinct: an invalid address, an empty device and an invalid anti-phishing code. |
| ValidationBasic.IsPasswordValid | common/validation/basic.go:17-38 | True iff every rune falls into lower, number, upper or punct/symbol, tested in that order; all four classes occur; and there are 8 to 255 runes. |
| ValidationBasic.HasClassExtend | common/validation/basic.go:21-35 | A class occurs in a prefix one rune longer iff it occurs in the shorter prefix or is the added rune's class. This is the step for the loop's four flags. |
| ValidationBasic.PasswordExamples | common/validation/basic.go:17-38 | With classes that agree with Unicode on ASCII, "adgA4$qq" is accepted. "", " ", a password with no capital and a four-rune password are rejected. |
| ValidationBasic.IsAntiPhishingCodeValid | common/validation/basic.go:70-96 | True iff the byte length is in [4, 20] and every rune is 0-9, A-Z or a-z. |
| ValidationBasic.AntiPhishingCodeRunes | common/validation/basic.go:73-93 | An accepted code is ASCII, so it has 4 to 20 runes. |
| ValidationBasic.IsNameValid | common/validation/basic.go:99-101 | True iff the UTF-8 length is at least 2. |
| ValidationBasic.NameLength | common/validation/basic.go:99-101 | The one-rune name "é" passes, because it is two bytes. |
| ValidationBasic.IsEmailValid | common/validation/basic.go:40-56 | The byte-length gate, then the pattern. It has no contract of its own. EmailLengthGate and EmailRuneBounds state its properties. |
| ValidationBasic.EmailLengthGate | common/validation/basic.go:40-56 | Outside [3, 319] bytes an email is rejected whatever the pattern says; inside, the pattern decides. |
| ValidationBasic.EmailRuneBounds | common/validation/basic.go:40-56 | Since the gate counts bytes, an email of more than 319 runes is always rejected, and an accepted one has at least one rune and matches the pattern. For an ASCII email the gate is exactly 3 to 319 characters. |
| ValidationBasic.IsIpv4Valid | common/validation/basic.go:58-62 | The IPv4 pattern on the trimmed input. It has no contract of its own. IpChecksIgnoreSurroundingSpace states its property. |
| ValidationBasic.IsIpv6Valid | common/validation/basic.go:64-68 | The IPv6 pattern on the trimmed input. It has no contract of its own. IpChecksIgnoreSurroundingSpace states its property. |
| ValidationBasic.IpChecksIgnoreSurroundingSpace | common/validation/basic.go:58-68 | Both checks see the trimmed input, so white space around an address never changes the answer. |
| ValidationBasic.ParseDigitsValue | common/validation/basic.go:163 | On an all-digit string, the ParseUint digit loop with its cutoff test returns the decimal value when it is at most 2^64-1, and a range error otherwise. |
| ValidationBasic.ParseDigitsOnlyDigits | common/validation/basic.go:163 | When the digit loop succeeds, every rune it read is an ASCII digit. |
| ValidationBasic.ParseUint | common/validation/basic.go:163 | `strconv.ParseUint(s, 10, 64)`: a syntax error on the empty string, otherwise the digit loop. It has no contract of its own. ParseUintAccepts, ParseDigitsValue and ParseDigitsOnlyDigits state its properties. |
| ValidationBasic.ParseUintAccepts | common/validation/basic.go:163 | ParseUint succeeds iff the string is non-empty, all ASCII digits, and in range. |
| ValidationBasic.HasOnlyDigits | common/validation/basic.go:159-165 | A nil pointer check, then ParseUint. It has no contract of its own. HasOnlyDigitsIff and HasOnlyDigitsExamples state its properties. |
| ValidationBasic.HasOnlyDigitsIff | common/validation/basic.go:159-165 | nil gives false; otherwise true iff the string is non-empty, all ASCII digits, and at most 2^64-1. |
| ValidationBasic.HasOnlyDigitsExamples | common/validation/basic.go:159-165 | nil, "", " ", "(123)1255", "123-5515" and "3 53158" are rejected; "123123" is accepted. |
| ValidationBasic.Diff | common/validation/basic.go:112-157 | After the swap, sec and min are in [0,60), hour in [0,24), month in [0,12), and day and year are at least 0. The borrows satisfy the mixed-radix equations, with the day borrow using the earlier date's month length. |
| ValidationWrappers.ValidateIPAddressAndDevice | common/validation/wrappers.go:19-33 | An "ip_address" error iff the address is neither IPv4 nor IPv6, then a "device" error iff the trimmed device is empty. Each has one code; valid iff both checks pass. |
| ValidationWrappers.ValidateIPAddress | common/validation/wrappers.go:35-44 | One "ip_address" error iff both IP checks fail, otherwise none. |
| ValidationWrappers.ValidateAntiPhishingCode | common/validation/wrappers.go:46-54 | One "code" error with code "invalid_anti_phishing_code" iff the code breaks the rule. |
| ValidationWrappers.SharedFieldErrors | common/validation/types.go:139-158 | A scenario, not a general property: after AddResult, a code added to a shared field error through one result is seen through the other. |
| Config.HostWithoutProtocol | internal/config/config.go:42-45 | The two TrimPrefix calls. It has no contract of its own. HostWithoutProtocolSuffix, HostWithoutPrefixUnchanged and HostWithoutProtocolExamples state its properties. |
| Config.HostWithoutProtocolSuffix | internal/config/config.go:42-45 | The result is a suffix of the host, shorter by 0, 7, 8 or 15 characters. |
| Config.HostWithoutPrefixUnchanged | internal/config/config.go:43-44 | A host with neither prefix comes back unchanged. |
| Config.HostWithoutProtocolExamples | internal/config/config.go:43-44 | "http://http://h" gives "http://h", so the function is not idempotent; "https://http://h" keeps its inner "http://". |
| Config.IsNoop | internal/config/config.go:47-49 | The dev-mode test. It has no contract of its own. IsNoopDependsOnlyOnMode and IsNoopNeedsValidDevMode state its properties. |
| Config.IsNoopDependsOnlyOnMode | internal/config/config.go:47-49 | IsNoop, the mode test of config.go, depends on the mode only. Two configurations with the same mode agree, and all no-op configurations share one mode. |
| Config.IsNoopNeedsValidDevMode | internal/config/config.go:18-49 | A configuration with an admitted mode can be a no-op one only when the dev mode is itself among the mode values the `oneof` rule admits. Setting the mode to the dev mode makes any configuration a no-op one. |
| ApiServer.AddError | internal/api/server.go:74-79 | A nil accumulator gives e unchanged; otherwise the result is formatted as "<all>; <e>". |
| ApiServer.AddErrorFold | internal/api/server.go:56-79 | Folding addError over errors gives nil iff there are none, a single error unchanged, and otherwise their texts joined by "; " in order. |
| ApiServer.Failures | internal/api/server.go:56-72 | The errors kept are exactly the non-nil close results. |
| ApiServer.FoldFailuresOfTwo | internal/api/server.go:56-72 | Joining the failures of the two close results is adding the Echo failure, if any, and then the tracer's failure, if any. |
| ApiServer.Server.Close | internal/api/server.go:56-72 | Both closers are closed once whatever happens. The result is nil iff both succeed, a single failure is returned unchanged, and two failures are joined with the Echo error first. |
| ApiMiddleware.SkipLogging | internal/api/middleware.go:12-15 | True iff "health-check" occurs somewhere in the request URI. |
| ApiMiddleware.SkipLoggingExamples | internal/api/middleware.go:12-15 | "/v1/health-check" is skipped; "/v1/health" and "" are not. |
| ApiMiddleware.ConstantTimeCompare | internal/api/middleware.go:22-23 | 1 iff the two strings are equal, else 0. |
| ApiMiddleware.IsUnauthorized | internal/api/middleware.go:20-23 | The authorization decision. It has no contract of its own. AuthorizedIff states its property. |
| ApiMiddleware.AuthorizedIff | internal/api/middleware.go:20-23 | A request passes iff it carries basic auth with exactly the configured user and password. |
| ApiMiddleware.IPCMiddleware | internal/api/middleware.go:17-31 | An unauthorized request gets exactly one 401 response with a nil body. The handler returns the error of writing that response, and `next` is not invoked. An authorized request writes no response itself, invokes `next` once and returns its result. |

## Left out

- Sentry SDK internals are not part of this model: `sentry.NewClient`, network delivery, the event hint beyond its fields, and `sentry.Scope` beyond level, tags and extras. The client is a recording class, the outcome of its flush is fixed when it is made, and the event IDs it returns are ignored.
- The scope is a value passed along and returned, not a shared `*sentry.Scope` pointer. Only the core's own updates to it are modelled.
- Floats are their IEEE bit patterns, and complex numbers, byte slices, Stringer output and Time values are opaque. `time.Unix(...).In(loc)` is not modelled; a Time field decodes to its nanosecond slot and its optional zone.
- `fmt.Sprintf("%v")` for tag values, and `fmt.Sprintf` in `AddDetails`, are function parameters.
- `internal/log/log.go` (the zap configuration and its Sentry attach rule) is not part of this model, and neither are `WithSentry` and `NewTestLogger`, which only set fields. The Logger that the Temporal adapter wraps records its calls and stands in for zap.
- `common/tracing/*`, `common/httpx/*`, `cmd/main.go` and `internal/api/routes.go` are plumbing and are not part of this model. `config.Read` reads the environment and is left out, and so is `NewServer`.
- `IsAlpha`, and the regular expressions of `IsEmailValid`, `IsIpv4Valid`, `IsIpv6Valid` and `unmarshalError`, are parameters: the patterns are not part of the shown files.
- The Unicode category tables used by `IsPasswordValid` are parameters.
- `IsCountryCallingCodeValid` depends on the external countries library and is not modelled.
- `IsOlderThan` reads the clock and is not modelled.
- `Diff`: the zone conversion at basic.go:113-115 is not modelled. Dates are explicit calendar components in one zone, and `a.After(b)` is a lexicographic comparison of those components.
- `CodeErrorWithEvents` and the `Events` field are not modelled, because the event payload package is not part of this model.
- Go's distinction between a nil slice and an empty one is not kept: `new(Result)` and `NewResult` give the same value.
- Strings are sequences of runes. Byte lengths are computed as UTF-8 lengths, so invalid UTF-8 is not represented.
- `ConstantTimeCompare` does not model the timing behaviour, only the result.
- `ValidationTypes`: pairwise distinctness of the codes of all 29 fixed `ErrorDetails` is not stated. Only the three codes the wrappers attach are proved distinct (`WrapperErrorCodesDistinct`).
