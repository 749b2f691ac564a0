# Onboarding form validator

A Dafny model of `validateForm`, the client-side validator of a merchant
onboarding form. It takes the form's record (field name to value) and
returns a fresh object that maps the name of every field failing its check
to one error message. Seventeen fields are checked, each by one conditional
assignment, in a fixed order:

- ten fields are only required: a falsy value (absent or `""`) is reported;
- `applName` is required and must be at least 3 UTF-16 code units long
  (`.length`), with one message for both failures;
- six fields are required and then tested against an anchored regular
  expression, with a second message when the present value does not match.

## Files

- `formats.dfy`, module `Formats`: JavaScript's `\d`, `[A-Z]`, `[a-z]` and
  `\s` classes, the six patterns written as predicates over strings, and
  `Utf16Length`, JavaScript's `.length` (UTF-16 code units).
- `regex.dfy`, module `Regex`: an independent meaning for the fragment of
  regular expressions the validator uses (an anchored sequence of character
  classes, each with a repetition bound). It proves that each predicate of
  `Formats` accepts exactly the strings its literal matches.
- `validation.dfy`, module `Validation`: the form record, the checked fields
  and their keys, the messages and their wording (`Text`), and the rule
  table (`RuleOf`). It also holds the declarative error map `Validate`, the
  imperative `CheckField` and `ValidateForm`, and `ErrorObject`, the object
  the validator returns.
- `properties.dfy`, module `ValidationProperties`: what the validator
  promises, field by field and for the result as a whole.

## How the model reads the code

- A value is falsy when the key is absent or its value is the empty string.
  Nothing is trimmed, so a value of blanks is present.
- `ValidateForm` starts from an empty map and performs the 17 conditional
  assignments in the order of lines 10 to 64. Each assignment is one call
  of `CheckField`. That method takes the field's rule from `RuleOf` and
  runs the source's statement shape for it: required only, required with
  a minimum length, or required and then a pattern.
- While being built, the error map is keyed by `Field`. At the return,
  `ErrorObject` renders each field under its JavaScript name (`Key`) with
  its message's wording (`Text`). No two fields share a name
  (`KeyInjective`), so nothing is lost.
- `.length` counts UTF-16 code units. A character above U+FFFF counts twice,
  so `"a😀"` passes the minimum of 3 (`AstralCharacterCountsTwice`).
- `\d` and `[0-9]` are ASCII digits. `\s` is the ECMAScript white-space and
  line-terminator set, written out as a fixed list. `$` without the `m` flag
  matches only at the end of the input, so a trailing newline fails.
- Where other descriptions of the validator differ from the code, the model
  follows the code:
  - values are not trimmed;
  - `meName` is required and nothing more;
  - an account number has 10 to 18 digits.
- The example in the IFSC format message, `SBIB001458`, has ten characters.
  The pattern therefore rejects it (`IfscMessageExampleRejected`).

## Model

| member | source | states |
|---|---|---|
| Validation.ValidateForm | src/validation/validation.js:5-69 | the returned object is `ErrorObject(Validate(data))`: every checked field whose own value fails its rule, under its name, with its message's text |
| Validation.CheckField | src/validation/validation.js:10-64 | one conditional assignment leaves `errors` with the field's outcome recorded (`Add`) and every other entry unchanged |
| Validation.InSourceOrder | src/validation/validation.js:6-64 | performing the 17 checks one after another, in the source's order, from an empty map, yields the declarative error map |
| Validation.PrefixStep | src/validation/validation.js:10-64 | the check at position n extends the errors of the checks before it by the error of the field it checks |
| Validation.ErrorsOfAdd | src/validation/validation.js:10-64 | recording one more field's outcome adds that field's entry and changes no other |
| Validation.ErrorObject | src/validation/validation.js:6-68 | a name is a key of the returned object exactly when its field is reported; its value is the message's text; every key names a checked field |
| Validation.KeyNamesField | src/validation/validation.js:10-64 | each checked field's name leads back to that field, so the 17 names are distinct |
| Validation.KeyInjective | src/validation/validation.js:10-64 | two checked fields with the same name are the same field, so no entry of the object overwrites another |
| Formats.Utf16Length | src/validation/validation.js:10 | `.length` lies between the number of characters and twice that, and equals it exactly when no character lies above U+FFFF |
| Regex.ContactNameIsPattern | src/validation/validation.js:19 | the contact-name predicate accepts exactly the strings `/^[a-zA-Z\s]+$/` matches |
| Regex.MobileIsPattern | src/validation/validation.js:26 | the mobile predicate accepts exactly the strings `/^\d{10}$/` matches |
| Regex.PincodeIsPattern | src/validation/validation.js:35 | the pincode predicate accepts exactly the strings `/^\d{6}$/` matches |
| Regex.PanIsPattern | src/validation/validation.js:43 | the PAN predicate accepts exactly the strings `/^[A-Z]{5}[0-9]{4}[A-Z]{1}$/` matches |
| Regex.IfscIsPattern | src/validation/validation.js:54 | the IFSC predicate accepts exactly the strings `/^[A-Z]{4}0[A-Z0-9]{6}$/` matches |
| Regex.AccountNumberIsPattern | src/validation/validation.js:60 | the account-number predicate accepts exactly the strings `/^\d{10,18}$/` matches |
| Regex.AcceptsIsPatternMatch | src/validation/validation.js:17-62 | every format the validator applies accepts exactly what its literal matches |
| Regex.MatchesLast | src/validation/validation.js:19 | the last term of an anchored pattern must take all the remaining input |
| Regex.MatchesFixedFirst | src/validation/validation.js:43 | a fixed-width first term takes exactly its width of input |
| ValidationProperties.ReportedIsFieldError | src/validation/validation.js:10-68 | the object's entry under a field's name is the text of the message that field's own check produces, or nothing when the check passes |
| ValidationProperties.ApplNameOutcome | src/validation/validation.js:10-12 | `applName` is reported, with its single message, exactly when it is falsy or shorter than 3 code units |
| ValidationProperties.AstralCharacterCountsTwice | src/validation/validation.js:10 | a one-letter name followed by one character above U+FFFF has length 3 and passes |
| ValidationProperties.RequiredOnlyFields | src/validation/validation.js:13-64 | exactly city, firm, business_type, instAddr1, instLocality, mcc, panDob, meAcType, meName and qrBoombox are only required |
| ValidationProperties.RequiredOnlyOutcome | src/validation/validation.js:13-15 | a required-only field is reported, with its message, exactly when its value is falsy |
| ValidationProperties.BlankValuePasses | src/validation/validation.js:13 | any non-empty value made only of whitespace passes a required-only check: there is no trimming |
| ValidationProperties.AccountHolderNameUnchecked | src/validation/validation.js:50 | `meName` is reported exactly when it is falsy; no pattern applies |
| ValidationProperties.PatternFields | src/validation/validation.js:17-62 | exactly contactPerson, mobile, instPincode, pan, melfsc and meAcNo have a pattern, and which pattern each has |
| ValidationProperties.PatternFieldOutcome | src/validation/validation.js:17-62 | a pattern field gets the "required" message when falsy, no entry when its regular expression (its meaning from `Regex`) matches the value, the format message otherwise; the two messages' texts differ, so a falsy value never shows the format text |
| ValidationProperties.ContactPersonOutcome | src/validation/validation.js:17-22 | `contactPerson`: required, then one or more ASCII letters or JavaScript whitespace (`\s`) |
| ValidationProperties.BlankContactPersonPasses | src/validation/validation.js:19 | any non-empty contact person made only of whitespace passes |
| ValidationProperties.MobileOutcome | src/validation/validation.js:24-28 | `mobile`: required, then exactly ten ASCII digits |
| ValidationProperties.PincodeOutcome | src/validation/validation.js:33-37 | `instPincode`: required, then exactly six ASCII digits |
| ValidationProperties.PanOutcome | src/validation/validation.js:41-46 | `pan`: required, then five capitals, four digits, one capital |
| ValidationProperties.IfscOutcome | src/validation/validation.js:52-56 | `melfsc`: required, then four capitals, a zero, six capitals or digits |
| ValidationProperties.AccountNumberOutcome | src/validation/validation.js:58-62 | `meAcNo`: required, then 10 to 18 ASCII digits |
| ValidationProperties.MobileSamples | src/validation/validation.js:26 | ten digits pass; nine, eleven, a blank inside, or a trailing newline fail |
| ValidationProperties.PincodeSamples | src/validation/validation.js:35 | six digits pass; five, seven, or letters fail |
| ValidationProperties.PanSamples | src/validation/validation.js:43 | RTGHP2345G and ABCDE1234F pass; lower case, a short value, or a digit too early fail |
| ValidationProperties.IfscSamples | src/validation/validation.js:54 | SBIN0001234 passes; a non-zero fifth character, lower case, or ten characters fail |
| ValidationProperties.IfscMessageExampleRejected | src/validation/validation.js:54-55 | the example quoted in the IFSC format message does not match the IFSC pattern |
| ValidationProperties.AccountNumberSamples | src/validation/validation.js:60 | 10 and 18 digits pass; 9 and 19 digits, or a hyphen, fail |
| ValidationProperties.ContactNameSamples | src/validation/validation.js:19 | names with blanks or a tab pass; the empty string, digits or punctuation fail |
| ValidationProperties.UpdateTouchesOneField | src/validation/validation.js:10-64 | changing one field's value changes no other field's entry |
| ValidationProperties.OwnValueOnly | src/validation/validation.js:10-64 | a field's entry depends on that field's value alone |
| ValidationProperties.UncheckedKeyIgnored | src/validation/validation.js:5-68 | a key the validator does not check never appears in the result, and its value changes nothing |
| ValidationProperties.FormExtrasUnchecked | src/component/ApplicationForm.js:13-19 | applicationId, agentId, status and dba are not checked |
| ValidationProperties.FormAddressExtrasUnchecked | src/component/ApplicationForm.js:24-25 | instAddr2 and instAddr3 are not checked |
| ValidationProperties.FormDocumentPathsUnchecked | src/component/ApplicationForm.js:37-41 | docPath and the four other document paths are not checked |
| ValidationProperties.NoErrorsIffAllPass | src/validation/validation.js:6-68 | the returned object is empty exactly when every checked field passes |
| ValidationProperties.BlankFormReportsEveryField | src/validation/validation.js:10-64 | when every checked field is absent or empty, the object holds every field's name with the text of its "required" message |

## Left out

- `src/component/ApplicationForm.js`, `src/component/ApplicationList.js`
  and `src/App.js` are React markup, state setters, alerts and HTTP calls.
  None of them is modelled. Only the form's keys are used, to name the
  fields the validator ignores.
- The order of the returned object's keys is not modelled. A JavaScript
  object remembers insertion order, which here is the order of the checks;
  the model's map has no order.
- Values that are not strings are not modelled. The record maps names to
  strings. The form's `agentId` is a number, but the validator never reads
  it. A number, `null` or a boolean in a checked field would go through
  JavaScript's conversions for `!`, `.length` and `RegExp.prototype.test`,
  which are not modelled.
- Keys inherited from the object's prototype are not modelled.
- Strings holding an unpaired surrogate (U+D800 to U+DFFF alone) are not
  modelled: a Dafny string cannot hold one. In JavaScript such a code unit
  counts 1 towards `.length` and matches none of the patterns' classes.
- The `\s` class is the ECMAScript set with the Unicode space separators of
  the current standard written out. Separators added in later Unicode
  versions are not included.
- A general regular-expression engine is not modelled. Module `Regex` gives
  a meaning only to the fragment the six literals use.
