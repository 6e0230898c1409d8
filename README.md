# Workshop domain layer, in Dafny

A model of the domain layer of a mechanical-workshop service: order
management the workshop uses for its clients, their vehicles and the
service orders opened for them. It covers four self-validating value
objects, the base entity with identity and timestamps, and three entities
built on them:

- `CpfCnpj` (module `CpfCnpjs`): a Brazilian taxpayer number. Non-digits
  are stripped. Eleven digits are checked as a CPF, fourteen as a CNPJ,
  each with its two mod-11 check digits. `ValidateCpf` and `ValidateCnpj`
  keep the source's loops and are proved equal to closed-form check-digit
  predicates.
- `Email` (module `Emails`): the `local@domain.tld` grammar, matched against the
  raw input, then lower-cased.
- `LicensePlate` (module `LicensePlates`): upper-cased, stripped of
  everything outside `A-Z0-9`, then one of two seven-character grammars:
  the old `LLLDDDD` and the Mercosur `LLLDLDD`.
- `Vin` (module `Vins`): trimmed and upper-cased, then checked in a fixed
  order: length 17, no I/O/Q, allowed alphabet.
- `BaseEntity` (module `BaseEntities`): id and creation time fixed, an
  update time that can be set, and equality by id.
- `Client` (module `Clients`) and `Vehicle` (module `Vehicles`): classes
  whose mutators re-validate through the value objects and move the
  update time. A failed validation changes nothing.
- `ServiceOrder` (modules `ServiceOrderStatuses`,
  `StatusTransitionErrors`, `ServiceOrders`): eleven statuses and a
  transition table that guards every status change. A refused change
  yields an error carrying the current status, the status asked for and
  the current row of the table, with a message built from them.

Support modules: `Text` covers ASCII whitespace, case mapping, `trim`,
JavaScript's `substring` and the character filter that models
`replace(/[^…]/g, '')`. `Wrappers` covers `Option`, `Result` and `Outcome`.

Conventions:

- A thrown error is the `Failure`/`Fail` branch of a result, carrying the
  exact message string or error value.
- `undefined` is `None`.
- The wall clock is a `now: nat` parameter of every operation that reads
  it.
- The `*_examples.dfy` files restate the test suites' concrete inputs as
  lemmas about the model.

## Model

| member | source | states |
|---|---|---|
| Text.HasText | src/domain/clients/entities/client.entity.ts:113-122 | an optional text counts as present exactly when it exists and holds a character other than whitespace |
| Text.TrimStart | src/shared/value-objects/vin.vo.ts:24 | what remains is a suffix of the input that does not start with whitespace, and every character dropped is whitespace |
| Text.TrimEnd | src/shared/value-objects/vin.vo.ts:24 | what remains is a prefix of the input that does not end with whitespace, and every character dropped is whitespace |
| Text.BlankIffAllWhitespace | src/shared/value-objects/vin.vo.ts:20 | the emptiness guard `!value \|\| value.trim() === ''` holds exactly for strings made only of whitespace |
| Text.TrimAround | src/shared/value-objects/vin.vo.ts:24 | trimming removes exactly the whitespace padding around a word |
| Text.TrimKeeps | src/shared/value-objects/vin.vo.ts:24 | trimming keeps every non-whitespace character, shifted by the leading padding |
| Text.Keep | src/shared/value-objects/license-plate.vo.ts:24 | the character filter keeps only characters that pass, and never lengthens its input |
| Text.KeepConcat | src/shared/value-objects/cpf-cnpj.vo.ts:25 | filtering distributes over concatenation |
| Text.KeepIsIdempotent | src/shared/value-objects/cpf-cnpj.vo.ts:9-10 | filtering an already filtered string changes nothing |
| Text.Substring | src/shared/value-objects/vin.vo.ts:54-56 | `substring` with in-range bounds is the slice between them, in either order |
| CpfCnpjs.DigitsOnly | src/shared/value-objects/cpf-cnpj.vo.ts:25 | `replace(/\D/g, '')` leaves only digits |
| CpfCnpjs.IsValidCpf | src/shared/value-objects/cpf-cnpj.vo.ts:45-65 | a valid CPF has 11 digits, not all equal, whose last two are the weighted-sum check digits (weights 10..2, then 11..2) of the digits before them; `ValidateCpf` proves the loop accepts exactly these |
| CpfCnpjs.IsValidCnpj | src/shared/value-objects/cpf-cnpj.vo.ts:70-101 | a valid CNPJ has 14 digits, not all equal, whose last two are the check digits under the wrapping weights 2..9 counted from the right; `ValidateCnpj` proves the loop accepts exactly these |
| CpfCnpjs.CpfCheckDigit | src/shared/value-objects/cpf-cnpj.vo.ts:54-55 | a CPF check digit is always a single digit |
| CpfCnpjs.CnpjCheckDigit | src/shared/value-objects/cpf-cnpj.vo.ts:86 | a CNPJ check digit is always a single digit |
| CpfCnpjs.CnpjWeightTables | src/shared/value-objects/cpf-cnpj.vo.ts:75-100 | the wrapping position counter yields weights 5,4,3,2,9..2 for the first CNPJ digit and 6,5,4,3,2,9..2 for the second |
| CpfCnpjs.CheckDigitRulesAgree | src/shared/value-objects/cpf-cnpj.vo.ts:54-55 | the CPF rule (11 − sum mod 11, 10 or more becomes 0) and the CNPJ rule (sum mod 11 below 2 gives 0, else 11 − sum mod 11) give the same digit for every sum |
| CpfCnpjs.ValidateCpf | src/shared/value-objects/cpf-cnpj.vo.ts:45-65 | the loop accepts exactly the CPFs that are not one repeated digit and whose two check digits match the weighted sums with weights 10..2 and 11..2 |
| CpfCnpjs.CnpjWeightStep | src/shared/value-objects/cpf-cnpj.vo.ts:82-83 | one step of the position counter, decremented and reset to 9 below 2, gives the next digit's weight |
| CpfCnpjs.CnpjLoopSum | src/shared/value-objects/cpf-cnpj.vo.ts:78-84 | the loop over the 12 (or 13) leading digits with the wrapping position counter computes their weighted sum |
| CpfCnpjs.ValidateCnpj | src/shared/value-objects/cpf-cnpj.vo.ts:70-101 | the loop with the wrapping position counter accepts exactly the CNPJs that are not one repeated digit and whose two check digits match |
| CpfCnpjs.CpfCnpj.Formatted | src/shared/value-objects/cpf-cnpj.vo.ts:113-119 | the mask has 14 characters for a CPF and 18 for a CNPJ |
| CpfCnpjs.CpfCnpj.Clean | src/shared/value-objects/cpf-cnpj.vo.ts:106-108 | the `clean` getter is the stored digit string; `CreatedShape` proves it is 11 or 14 digits for a created value |
| CpfCnpjs.CpfCnpj.IsCpf | src/shared/value-objects/cpf-cnpj.vo.ts:124-126 | `isCpf` is the stored kind; `Make` ties it to a length of 11 and `CreatedShape` proves it for created values |
| CpfCnpjs.CpfCnpj.Equals | src/shared/value-objects/cpf-cnpj.vo.ts:138-140 | comparing the digit strings decides equality of two well-formed values, both ways |
| CpfCnpjs.CpfCnpj.IsCnpj | src/shared/value-objects/cpf-cnpj.vo.ts:124-133 | `isCnpj` is the negation of `isCpf` |
| CpfCnpjs.CpfCnpj.ToString | src/shared/value-objects/cpf-cnpj.vo.ts:145-147 | `toString` is the formatted mask |
| CpfCnpjs.Make | src/shared/value-objects/cpf-cnpj.vo.ts:9-12 | the constructor stores exactly the digits of its argument, in order, and marks a CPF exactly when there are 11 of them |
| CpfCnpjs.Create | src/shared/value-objects/cpf-cnpj.vo.ts:20-40 | blank input fails with "CPF/CNPJ cannot be empty"; 11 digits go to the CPF check and fail with "Invalid CPF"; 14 go to the CNPJ check and fail with "Invalid CNPJ"; any other count fails with "CPF/CNPJ must have 11 or 14 digits"; a success is valid and holds the input's digits |
| CpfCnpjs.RepeatedDigitsRejected | src/shared/value-objects/cpf-cnpj.vo.ts:46-48 | 11 or 14 copies of one digit are rejected whatever their checksums |
| CpfCnpjs.CreatedShape | src/shared/value-objects/cpf-cnpj.vo.ts:124-133 | a created value holds 11 or 14 digits, is a CPF exactly when it has 11, and its digits pass the CPF check (for 11) or the CNPJ check (for 14) |
| CpfCnpjs.CreateIgnoresPunctuation | src/shared/value-objects/cpf-cnpj.vo.ts:25 | inputs with the same digits give the same outcome |
| CpfCnpjs.EqualsIffSameDigits | src/shared/value-objects/cpf-cnpj.vo.ts:138-140 | two created values are equal exactly when their inputs have the same digits |
| CpfCnpjs.FormattedDigits | src/shared/value-objects/cpf-cnpj.vo.ts:113-119 | stripping the mask's punctuation gives back the clean digits |
| CpfCnpjs.CpfMaskDigits | src/shared/value-objects/cpf-cnpj.vo.ts:114-115 | stripping the non-digits from the CPF mask `###.###.###-##` gives back the eleven digits in order |
| CpfCnpjs.CnpjMaskDigits | src/shared/value-objects/cpf-cnpj.vo.ts:116-117 | stripping the non-digits from the CNPJ mask `##.###.###/####-##` gives back the fourteen digits in order |
| CpfCnpjs.FormattedRoundTrip | src/shared/value-objects/cpf-cnpj.vo.ts:113-119 | creating from the formatted mask, or from `toString`, gives back the same value |
| CpfCnpjs.CreateFromDigits | src/shared/value-objects/cpf-cnpj.vo.ts:25-37 | on a digit string, the length chooses the check and the failure message |
| CpfCnpjExamples.ValidCpfExample | src/shared/value-objects/cpf-cnpj.vo.spec.ts:8-24 | "52998224725" is accepted as a CPF, formats as "529.982.247-25", and the formatted input gives the same value |
| CpfCnpjExamples.ValidCnpjExample | src/shared/value-objects/cpf-cnpj.vo.spec.ts:40-56 | "11222333000181" is accepted as a CNPJ, formats as "11.222.333/0001-81", and the formatted input gives the same value |
| CpfCnpjExamples.InvalidCpfExample | src/shared/value-objects/cpf-cnpj.vo.spec.ts:26-28 | "12345678901" fails with "Invalid CPF" |
| CpfCnpjExamples.InvalidCnpjExample | src/shared/value-objects/cpf-cnpj.vo.spec.ts:58-60 | "12345678000190" fails with "Invalid CNPJ" |
| CpfCnpjExamples.WrongLengthExample | src/shared/value-objects/cpf-cnpj.vo.spec.ts:34-36 | a 9-digit input fails with "CPF/CNPJ must have 11 or 14 digits" |
| CpfCnpjExamples.BlankExamples | src/shared/value-objects/cpf-cnpj.vo.spec.ts:68-74 | the empty and the whitespace-only input fail with "CPF/CNPJ cannot be empty" |
| CpfCnpjExamples.RepeatedCpfPassesChecksum | src/shared/value-objects/cpf-cnpj.vo.spec.ts:30-32 | "11111111111" would pass both check digits, and only the repeated-digit guard rejects it |
| Emails.IndexOf | src/shared/value-objects/email.vo.ts:23 | the index of the first occurrence of a character, or −1 exactly when it is absent |
| Emails.MatchesEmailPattern | src/shared/value-objects/email.vo.ts:23-24 | the grammar of `/^[^\s@]+@[^\s@]+\.[^\s@]+$/`: a non-empty local part, one `@`, and a domain with a dot that has text on both sides, none of it whitespace or `@`; `WellFormedIffMatches` proves the step-by-step reading equal to it |
| Emails.Make | src/shared/value-objects/email.vo.ts:8-10 | the constructor stores the lower-cased address, which for an input without whitespace is exactly its lower-case spelling |
| Emails.WellFormedIffMatches | src/shared/value-objects/email.vo.ts:23 | the step-by-step reading of the grammar (one '@', non-empty local part, a '.' inside the domain with something on each side, no whitespace) agrees with the pattern-as-existence predicate |
| Emails.MatchesIgnoresCase | src/shared/value-objects/email.vo.ts:23 | lower-casing neither makes nor breaks the grammar |
| Emails.ToLowerIsIdempotent | src/shared/value-objects/email.vo.ts:8-10 | lower-casing twice is lower-casing once |
| Emails.Create | src/shared/value-objects/email.vo.ts:18-29 | blank input fails with "Email cannot be empty"; input that does not match the grammar fails with "Invalid email format"; otherwise the result is the lower-cased input, and it is valid |
| Emails.CreatedEmailShape | src/shared/value-objects/email.vo.ts:34-43 | a created email is lower case, matches the grammar, and `normalized`, `value` and `toString` all return it |
| Emails.Email.Normalized | src/shared/value-objects/email.vo.ts:34-36 | the `normalized` getter is the stored lower-case address; `CreatedEmailShape` proves its form |
| Emails.Email.Value | src/shared/value-objects/email.vo.ts:41-43 | the `value` getter is the same stored address |
| Emails.Email.Equals | src/shared/value-objects/email.vo.ts:50-52 | equal stored addresses exactly when the two value objects are the same |
| Emails.Email.ToString | src/shared/value-objects/email.vo.ts:57-59 | `toString` is the stored address; `ToStringRoundTrip` proves creating from it gives the same email back |
| Emails.CreateIgnoresCase | src/shared/value-objects/email.vo.ts:8-10 | inputs that differ only in letter case give the same outcome |
| Emails.EqualsIffSameLowercase | src/shared/value-objects/email.vo.ts:50-52 | two created emails are equal exactly when their inputs agree after lower-casing |
| Emails.ToStringRoundTrip | src/shared/value-objects/email.vo.ts:57-59 | creating from `toString` gives back the same email |
| Emails.CreateWithoutWhitespace | src/shared/value-objects/email.vo.ts:19-26 | on non-empty input without whitespace, the grammar alone decides |
| EmailExamples.AcceptedExample | src/shared/value-objects/email.vo.spec.ts:5-9 | "test@example.com" is accepted unchanged |
| EmailExamples.LowerCasedExample | src/shared/value-objects/email.vo.spec.ts:11-14 | mixed- and upper-case spellings are accepted as "test@example.com" |
| EmailExamples.MissingAtExample | src/shared/value-objects/email.vo.spec.ts:29-31 | "testexample.com" fails with "Invalid email format" |
| EmailExamples.MissingDomainExample | src/shared/value-objects/email.vo.spec.ts:33-35 | "test@" fails with "Invalid email format" |
| EmailExamples.MissingLocalPartExample | src/shared/value-objects/email.vo.spec.ts:37-39 | "@example.com" fails with "Invalid email format" |
| EmailExamples.MissingTopLevelDomainExample | src/shared/value-objects/email.vo.spec.ts:41-43 | "test@example" fails with "Invalid email format" |
| EmailExamples.InnerSpaceExample | src/shared/value-objects/email.vo.spec.ts:45-47 | "test @example.com" fails with "Invalid email format" |
| EmailExamples.BlankExamples | src/shared/value-objects/email.vo.spec.ts:21-27 | empty and whitespace-only inputs fail with "Email cannot be empty" |
| EmailExamples.DistinctExample | src/shared/value-objects/email.vo.spec.ts:69-74 | two different addresses are not equal |
| LicensePlates.Clean | src/shared/value-objects/license-plate.vo.ts:24 | the clean form holds only upper-case letters and digits |
| LicensePlates.IsOldFormat | src/shared/value-objects/license-plate.vo.ts:27 | the old layout `^[A-Z]{3}[0-9]{4}$`: three capitals then four digits; `FormatsDisjoint` proves no plate is also Mercosur |
| LicensePlates.IsMercosurFormat | src/shared/value-objects/license-plate.vo.ts:29 | the Mercosur layout `^[A-Z]{3}[0-9][A-Z][0-9]{2}$`: three capitals, digit, capital, two digits |
| LicensePlates.Make | src/shared/value-objects/license-plate.vo.ts:9-11 | the constructor stores the clean form, which is the argument itself when it is already upper-case alphanumeric |
| LicensePlates.LicensePlate.Clean | src/shared/value-objects/license-plate.vo.ts:43-45 | the `clean` getter is the stored plate; `CreatedShape` proves its layout for a created plate |
| LicensePlates.LicensePlate.Formatted | src/shared/value-objects/license-plate.vo.ts:50-58 | a hyphen after the third character for the old layout, the plate itself otherwise; `FormattedShape` and `CleanOfFormatted` prove what that gives |
| LicensePlates.LicensePlate.Equals | src/shared/value-objects/license-plate.vo.ts:63-65 | equal stored plates exactly when the two value objects are the same |
| LicensePlates.LicensePlate.ToString | src/shared/value-objects/license-plate.vo.ts:70-72 | `toString` is the formatted plate; `FormattedRoundTrip` proves creating from it gives the same plate back |
| LicensePlates.CleanOfClean | src/shared/value-objects/license-plate.vo.ts:24 | a string already made of `A-Z0-9` is its own clean form |
| LicensePlates.CleanIsIdempotent | src/shared/value-objects/license-plate.vo.ts:24 | cleaning twice is cleaning once |
| LicensePlates.Create | src/shared/value-objects/license-plate.vo.ts:19-38 | blank input fails with "License plate cannot be empty"; otherwise success happens exactly when the clean form matches the old or the Mercosur grammar, and every other input fails with the format message; a success holds the clean form |
| LicensePlates.FormatsDisjoint | src/shared/value-objects/license-plate.vo.ts:27-29 | no string matches both grammars |
| LicensePlates.ValidPlateShape | src/shared/value-objects/license-plate.vo.ts:27-29 | a valid plate has seven upper-case letters and digits |
| LicensePlates.CreatedShape | src/shared/value-objects/license-plate.vo.ts:27-35 | a created plate is seven characters, three capitals then a digit with digits at the last two places, and is in exactly one of the two layouts |
| LicensePlates.CreateIgnoresCaseAndSeparators | src/shared/value-objects/license-plate.vo.ts:24 | inputs with the same clean form give the same outcome |
| LicensePlates.EqualsIffSameClean | src/shared/value-objects/license-plate.vo.ts:63-65 | two created plates are equal exactly when their inputs have the same clean form |
| LicensePlates.FormattedShape | src/shared/value-objects/license-plate.vo.ts:50-58 | an old plate is formatted as its first three characters, a hyphen and the last four; a Mercosur plate as itself |
| LicensePlates.CleanOfFormatted | src/shared/value-objects/license-plate.vo.ts:50-58 | cleaning the formatted plate gives back the clean value |
| LicensePlates.FormattedRoundTrip | src/shared/value-objects/license-plate.vo.ts:70-72 | creating from the formatted plate, or from `toString`, gives back the same plate |
| LicensePlates.CreateFromClean | src/shared/value-objects/license-plate.vo.ts:27-35 | on a non-empty `A-Z0-9` string, the two grammars alone decide |
| LicensePlateExamples.OldPlateExample | src/shared/value-objects/license-plate.vo.spec.ts:5-9 | "ABC1234" is accepted and formats as "ABC-1234" |
| LicensePlateExamples.OldPlateVariantsExample | src/shared/value-objects/license-plate.vo.spec.ts:11-30 | lower case, hyphenated and space-padded spellings are accepted as "ABC1234" |
| LicensePlateExamples.MercosurPlateExample | src/shared/value-objects/license-plate.vo.spec.ts:33-37 | "ABC1D23" is accepted and formats without a hyphen |
| LicensePlateExamples.LowerCaseMercosurPlateExample | src/shared/value-objects/license-plate.vo.spec.ts:39-42 | "abc1d23" is accepted as "ABC1D23" |
| LicensePlateExamples.ShortPlateExample | src/shared/value-objects/license-plate.vo.spec.ts:59-61 | six characters fail with the format message |
| LicensePlateExamples.LongPlateExample | src/shared/value-objects/license-plate.vo.spec.ts:63-65 | eight characters fail with the format message |
| LicensePlateExamples.AllLettersExample | src/shared/value-objects/license-plate.vo.spec.ts:67-69 | seven letters fail with the format message |
| LicensePlateExamples.AllDigitsExample | src/shared/value-objects/license-plate.vo.spec.ts:71-73 | seven digits fail with the format message |
| LicensePlateExamples.WrongPatternExample | src/shared/value-objects/license-plate.vo.spec.ts:75-77 | "AB12345" fails with the format message |
| LicensePlateExamples.SpecialCharacterExample | src/shared/value-objects/license-plate.vo.spec.ts:79-81 | "ABC@123" loses its '@', leaving six characters, and fails with the format message |
| LicensePlateExamples.BlankExamples | src/shared/value-objects/license-plate.vo.spec.ts:51-57 | empty and whitespace-only inputs fail with "License plate cannot be empty" |
| LicensePlateExamples.DistinctExample | src/shared/value-objects/license-plate.vo.spec.ts:97-101 | two different plates are not equal |
| Vins.CleanOfVinShaped | src/shared/value-objects/vin.vo.ts:47-49 | a well-formed VIN is its own clean form |
| Vins.Clean | src/shared/value-objects/vin.vo.ts:24 | `toUpperCase().trim()` is empty exactly for a blank input and never starts or ends with whitespace |
| Vins.IsVinShaped | src/shared/value-objects/vin.vo.ts:32-37 | 17 characters from `A-H`, `J-N`, `P`, `R-Z` and digits, which leaves out I, O and Q; `CreatedShape` proves every created VIN has it |
| Vins.Make | src/shared/value-objects/vin.vo.ts:9-11 | the constructor stores the clean form, which is the argument itself when it is already a well-formed VIN |
| Vins.Vin.Clean | src/shared/value-objects/vin.vo.ts:47-49 | the `clean` getter is the stored VIN |
| Vins.Vin.Formatted | src/shared/value-objects/vin.vo.ts:54-56 | the sections 0-3, 3-9 and 9-end joined by hyphens; `FormattedShape` proves its length and hyphen positions |
| Vins.Vin.Equals | src/shared/value-objects/vin.vo.ts:61-63 | equal stored VINs exactly when the two value objects are the same |
| Vins.Vin.ToString | src/shared/value-objects/vin.vo.ts:68-70 | `toString` is the stored VIN; `ToStringRoundTrip` proves creating from it gives the same VIN back |
| Vins.Create | src/shared/value-objects/vin.vo.ts:19-42 | blank input fails with "VIN cannot be empty"; a clean form of any length but 17 fails on length; then one with I, O or Q fails on those letters; then one outside the alphabet fails on the alphabet; a success is a valid VIN |
| Vins.CreatedShape | src/shared/value-objects/vin.vo.ts:37-41 | a created VIN has 17 characters, all capitals or digits, none of them I, O or Q, and cleaning it again leaves it unchanged |
| Vins.ForbiddenLetterSurvivesClean | src/shared/value-objects/vin.vo.ts:24-34 | upper-casing turns a lower-case i, o or q into a forbidden capital, and trimming keeps it |
| Vins.LowerCaseForbiddenLettersRejected | src/shared/value-objects/vin.vo.ts:32-34 | a lower-case i, o or q anywhere in a 17-character VIN is rejected as a forbidden letter |
| Vins.CreateIgnoresCaseAndPadding | src/shared/value-objects/vin.vo.ts:24 | inputs with the same trimmed upper-case form give the same outcome |
| Vins.EqualsIffSameClean | src/shared/value-objects/vin.vo.ts:61-63 | two created VINs are equal exactly when their inputs have the same clean form |
| Vins.ToStringRoundTrip | src/shared/value-objects/vin.vo.ts:68-70 | `toString` is the clean VIN, and creating from it gives back the same VIN |
| Vins.FormattedShape | src/shared/value-objects/vin.vo.ts:54-56 | the formatted VIN has 19 characters, with hyphens at positions 3 and 10, and removing them gives back the VIN |
| Vins.FormattedNotAccepted | src/shared/value-objects/vin.vo.ts:54-56 | the formatted VIN is not itself accepted: it fails on length |
| Vins.CreateFromClean | src/shared/value-objects/vin.vo.ts:19-42 | on a clean non-empty input, the length, letter and alphabet checks alone decide, in that order |
| VinExamples.AcceptedExample | src/shared/value-objects/vin.vo.spec.ts:7-11 | "1HGBH41JXMN109186" is accepted and is its own `toString` |
| VinExamples.FormattedValidVin | src/shared/value-objects/vin.vo.spec.ts:62-65 | it formats as "1HG-BH41JX-MN109186" |
| VinExamples.LowerCaseExample | src/shared/value-objects/vin.vo.spec.ts:13-16 | its lower-case spelling gives the same VIN |
| VinExamples.PaddedExample | src/shared/value-objects/vin.vo.spec.ts:18-21 | the space-padded spelling gives the same VIN |
| VinExamples.ShortExample | src/shared/value-objects/vin.vo.spec.ts:31-33 | 16 characters fail with "VIN must be exactly 17 characters" |
| VinExamples.LongExample | src/shared/value-objects/vin.vo.spec.ts:35-37 | 18 characters fail with "VIN must be exactly 17 characters" |
| VinExamples.InvalidCharacterExample | src/shared/value-objects/vin.vo.spec.ts:39-41 | a '@' fails with the alphabet message |
| VinExamples.LetterIExample | src/shared/value-objects/vin.vo.spec.ts:43-45 | an 'I' fails with the forbidden-letter message |
| VinExamples.LetterOExample | src/shared/value-objects/vin.vo.spec.ts:47-49 | an 'O' fails with the forbidden-letter message |
| VinExamples.LetterQExample | src/shared/value-objects/vin.vo.spec.ts:51-53 | a 'Q' fails with the forbidden-letter message |
| VinExamples.BlankExamples | src/shared/value-objects/vin.vo.spec.ts:23-29 | empty and whitespace-only inputs fail with "VIN cannot be empty" |
| VinExamples.DistinctExample | src/shared/value-objects/vin.vo.spec.ts:75-80 | two different VINs are not equal |
| BaseEntities.BaseEntity.constructor | src/shared/base/base.entity.ts:10-14 | id, creation time and update time are the arguments |
| BaseEntities.BaseEntity.SetUpdatedAt | src/shared/base/base.entity.ts:24-30 | the update time becomes the value set; id and creation time are constants |
| BaseEntities.BaseEntity.Equals | src/shared/base/base.entity.ts:37-42 | two entities are equal when their ids are; `EqualsIsEquivalence` proves it is an equivalence relation |
| BaseEntities.EqualsIsEquivalence | src/shared/base/base.entity.ts:37-42 | equality by id is reflexive, symmetric and transitive |
| BaseEntities.UnsavedEntitiesAreEqual | src/shared/base/base.entity.ts:37-42 | two entities that both still have the empty id are equal |
| Clients.Client.constructor | src/domain/clients/entities/client.entity.ts:14-30 | every field is the argument given |
| Clients.Client.Create | src/domain/clients/entities/client.entity.ts:55-76 | an invalid email's error wins; otherwise an invalid CPF/CNPJ's error; success exactly when both are valid, with id '', creation and update time both `now`, and phone and address as passed |
| Clients.Client.UpdateName | src/domain/clients/entities/client.entity.ts:81-84 | only the name and the update time change |
| Clients.Client.UpdateEmail | src/domain/clients/entities/client.entity.ts:89-92 | an invalid email fails with its message and leaves email and update time as they were; a valid one replaces the email and moves the update time; nothing else changes |
| Clients.Client.SetEmail | src/domain/clients/entities/client.entity.ts:90-91 | the email becomes the given one and the update time `now`; name, phone and address are unchanged |
| Clients.Client.UpdatePhone | src/domain/clients/entities/client.entity.ts:97-100 | only the phone (cleared by `None`) and the update time change |
| Clients.Client.UpdateAddress | src/domain/clients/entities/client.entity.ts:105-108 | only the address (cleared by `None`) and the update time change |
| Clients.Client.HasPhone | src/domain/clients/entities/client.entity.ts:113-115 | a phone counts exactly when present and not all whitespace |
| Clients.Client.HasAddress | src/domain/clients/entities/client.entity.ts:120-122 | an address counts exactly when present and not all whitespace |
| Clients.Client.GetFormattedCpfCnpj | src/domain/clients/entities/client.entity.ts:127-129 | the formatted number holds the raw digits and re-creates the same value |
| Clients.Client.GetRawCpfCnpj | src/domain/clients/entities/client.entity.ts:134-136 | the raw number is 11 digits for a CPF and 14 for a CNPJ |
| Clients.Client.GetNormalizedEmail | src/domain/clients/entities/client.entity.ts:141-143 | the email is lower case, well formed, and re-creates the same value |
| Vehicles.OptionalVin | src/domain/vehicles/entities/vehicle.entity.ts:51 | an absent or empty VIN argument means no VIN; any other goes through VIN validation and its error is passed on |
| Vehicles.IsTruthy | src/domain/vehicles/entities/vehicle.entity.ts:51 | the truthiness test of `vin ? … : undefined`: a present, non-empty string; `OptionalVin` uses it to decide whether a VIN is validated |
| Vehicles.Vehicle.constructor | src/domain/vehicles/entities/vehicle.entity.ts:16-36 | every field is the argument given |
| Vehicles.Vehicle.Create | src/domain/vehicles/entities/vehicle.entity.ts:41-66 | an invalid plate's error wins; otherwise an invalid VIN's; success exactly when both pass, with id '', both times `now`, and the year passed without any range check |
| Vehicles.Vehicle.UpdateLicensePlate | src/domain/vehicles/entities/vehicle.entity.ts:71-75 | an invalid plate fails and leaves the plate and update time as they were; a valid one replaces the plate; nothing else changes |
| Vehicles.Vehicle.SetLicensePlate | src/domain/vehicles/entities/vehicle.entity.ts:73-74 | the plate becomes the given one and the update time `now`; make, model, year, VIN and color are unchanged |
| Vehicles.Vehicle.UpdateMake | src/domain/vehicles/entities/vehicle.entity.ts:80-83 | only the make and the update time change |
| Vehicles.Vehicle.UpdateModel | src/domain/vehicles/entities/vehicle.entity.ts:88-91 | only the model and the update time change |
| Vehicles.Vehicle.UpdateYear | src/domain/vehicles/entities/vehicle.entity.ts:96-99 | only the year and the update time change |
| Vehicles.Vehicle.UpdateVin | src/domain/vehicles/entities/vehicle.entity.ts:104-108 | an invalid VIN fails and leaves the VIN and update time as they were; an absent or empty argument clears the VIN; a valid one replaces it |
| Vehicles.Vehicle.SetVin | src/domain/vehicles/entities/vehicle.entity.ts:106-107 | the VIN becomes the given one (or none) and the update time `now`; plate, make, model, year and color are unchanged |
| Vehicles.Vehicle.UpdateColor | src/domain/vehicles/entities/vehicle.entity.ts:113-116 | only the color and the update time change |
| Vehicles.Vehicle.HasVin | src/domain/vehicles/entities/vehicle.entity.ts:128-130 | true exactly when a VIN is present; for a validly built VIN that is exactly when the clean getter returns one |
| Vehicles.Vehicle.HasColor | src/domain/vehicles/entities/vehicle.entity.ts:135-137 | a color counts exactly when present and not all whitespace |
| Vehicles.Vehicle.GetFormattedLicensePlate | src/domain/vehicles/entities/vehicle.entity.ts:142-144 | the formatted plate re-creates the same plate and cleans to the clean plate |
| Vehicles.Vehicle.GetCleanLicensePlate | src/domain/vehicles/entities/vehicle.entity.ts:149-151 | the clean plate is seven upper-case letters and digits |
| Vehicles.Vehicle.GetFormattedVin | src/domain/vehicles/entities/vehicle.entity.ts:156-158 | absent exactly when there is no VIN; present, it has 19 characters with hyphens at positions 3 and 10, and removing those two gives back the VIN |
| Vehicles.Vehicle.GetCleanVin | src/domain/vehicles/entities/vehicle.entity.ts:163-165 | absent exactly when there is no VIN; present, it re-creates the same VIN |
| ServiceOrderStatuses.Rank | src/domain/service-orders/entities/service-order.entity.ts:82-127 | the position of each status in the workflow, at most 10 |
| ServiceOrderStatuses.AllowedTransitions | src/domain/service-orders/entities/service-order.entity.ts:82-127 | the transition table, row by row in the order written; the lemmas below prove its properties |
| ServiceOrderStatuses.CanTransition | src/domain/service-orders/entities/service-order.entity.ts:129-130 | a transition is allowed exactly when the target is in the row of the current status |
| ServiceOrderStatuses.IsFinalStatus | src/domain/service-orders/entities/service-order.entity.ts:258-265 | Delivered, Cancelled and Rejected are the final states; `FinalStatesAreClosed` proves which transitions leave them |
| ServiceOrderStatuses.Run | src/domain/service-orders/entities/service-order.entity.ts:129-136 | a sequence of status changes succeeds exactly when every step is allowed from the status before it, and then ends in the last status of the sequence |
| ServiceOrderStatuses.NameIsInjective | src/domain/service-orders/entities/service-order.entity.ts:82-127 | different statuses have different names |
| ServiceOrderStatuses.NoSelfTransitions | src/domain/service-orders/entities/service-order.entity.ts:82-127 | no row of the table holds its own status, and no row repeats a status |
| ServiceOrderStatuses.CancelAllowedUnlessCancelled | src/domain/service-orders/entities/service-order.entity.ts:82-127 | cancelling is allowed from every status but `CANCELLED`, whose row is empty |
| ServiceOrderStatuses.RejectAllowedUnlessRejectedOrCancelled | src/domain/service-orders/entities/service-order.entity.ts:82-127 | rejecting is allowed from every status but `REJECTED` and `CANCELLED` |
| ServiceOrderStatuses.RequestedIsNeverATarget | src/domain/service-orders/entities/service-order.entity.ts:82-127 | no status leads back to `REQUESTED` |
| ServiceOrderStatuses.FinalStatesAreClosed | src/domain/service-orders/entities/service-order.entity.ts:258-265 | the final statuses are `DELIVERED`, `CANCELLED` and `REJECTED`; each leads only to final statuses, though `DELIVERED` and `REJECTED` can still move |
| ServiceOrderStatuses.TransitionIncreasesRank | src/domain/service-orders/entities/service-order.entity.ts:82-127 | every allowed transition moves forward in the workflow |
| ServiceOrderStatuses.RunConcat | src/domain/service-orders/entities/service-order.entity.ts:129-136 | running two sequences of attempts one after the other is running their concatenation |
| ServiceOrderStatuses.RunRaisesRank | src/domain/service-orders/entities/service-order.entity.ts:82-127 | each accepted step raises the rank by at least one |
| ServiceOrderStatuses.NoCycles | src/domain/service-orders/entities/service-order.entity.ts:82-127 | no non-empty run of allowed transitions returns to its start, and no run has more than 10 steps |
| ServiceOrderStatuses.FinalStaysFinal | src/domain/service-orders/entities/service-order.entity.ts:82-127 | from a final status every run stays final, and from `CANCELLED` no step is accepted |
| ServiceOrderStatuses.HappyPath | src/domain/service-orders/entities/service-order.entity.spec.ts:120-132 | `RECEIVED` through every stage to `DELIVERED` is accepted step by step, as is `REQUESTED` to `DELIVERED` going straight from `APPROVED` to `IN_EXECUTION` |
| StatusTransitionErrors.Join | src/domain/service-orders/exceptions/invalid-service-order-status-transition.exception.ts:13 | joining no parts gives the empty string, and joining one part gives that part |
| StatusTransitionErrors.JoinSnoc | src/domain/service-orders/exceptions/invalid-service-order-status-transition.exception.ts:13 | the separator appears only between parts, in order |
| StatusTransitionErrors.JoinLength | src/domain/service-orders/exceptions/invalid-service-order-status-transition.exception.ts:13 | the joined length is the parts' total plus one separator per gap |
| StatusTransitionErrors.Names | src/domain/service-orders/exceptions/invalid-service-order-status-transition.exception.ts:13 | the allowed statuses are named one by one, in order |
| StatusTransitionErrors.InvalidServiceOrderStatusTransition.Message | src/domain/service-orders/exceptions/invalid-service-order-status-transition.exception.ts:13 | the message names the current and the requested status and joins the allowed targets with ", "; `RequestedToInDiagnosisMessage` and `FromCancelledMessage` prove two concrete messages |
| StatusTransitionErrors.InvalidServiceOrderStatusTransition.Code | src/domain/service-orders/exceptions/invalid-service-order-status-transition.exception.ts:14 | the error code passed to the base class is `InvalidServiceOrderStatusTransitionException`, which the base class also stores as `name` |
| StatusTransitionErrors.InvalidServiceOrderStatusTransition.Name | src/shared/exceptions/domain.exception.ts:11 | the error's name is its code |
| StatusTransitionErrors.RequestedRowJoined | src/domain/service-orders/exceptions/invalid-service-order-status-transition.exception.ts:13 | the `REQUESTED` row is listed as "RECEIVED, CANCELLED, REJECTED" |
| StatusTransitionErrors.RequestedToInDiagnosisMessage | src/domain/service-orders/exceptions/invalid-service-order-status-transition.exception.ts:8-16 | the refusal of `REQUESTED` to `IN_DIAGNOSIS` reads "Invalid status transition from REQUESTED to IN_DIAGNOSIS. Allowed transitions: RECEIVED, CANCELLED, REJECTED" |
| StatusTransitionErrors.FromCancelledMessage | src/domain/service-orders/exceptions/invalid-service-order-status-transition.exception.ts:13 | a refusal from `CANCELLED` ends with "Allowed transitions: " and nothing after it |
| ServiceOrders.ServiceOrder.constructor | src/domain/service-orders/entities/service-order.entity.ts:18-38 | every field is the argument given |
| ServiceOrders.ServiceOrder.Create | src/domain/service-orders/entities/service-order.entity.ts:43-57 | a new order is `REQUESTED`, unsaved, requested, created and updated at `now`, with no delivery date or cancellation reason and the notes passed |
| ServiceOrders.ServiceOrder.CreateReceived | src/domain/service-orders/entities/service-order.entity.ts:62-76 | the same, starting in `RECEIVED` |
| ServiceOrders.ServiceOrder.ValidateStatusTransition | src/domain/service-orders/entities/service-order.entity.ts:81-137 | a transition passes exactly when the target is in the current status's row; a refusal carries the current status, the target and that row |
| ServiceOrders.ServiceOrder.UpdateStatus | src/domain/service-orders/entities/service-order.entity.ts:233-237 | an allowed target becomes the status and moves the update time; a refused one returns the error and leaves status and update time; delivery date, notes and cancellation reason never change, even for `CANCELLED` |
| ServiceOrders.ServiceOrder.MarkReceived | src/domain/service-orders/entities/service-order.entity.ts:142-146 | attempts exactly `RECEIVED`, with the outcome `UpdateStatus` promises |
| ServiceOrders.ServiceOrder.MarkInDiagnosis | src/domain/service-orders/entities/service-order.entity.ts:151-155 | attempts exactly `IN_DIAGNOSIS` |
| ServiceOrders.ServiceOrder.MarkAwaitingApproval | src/domain/service-orders/entities/service-order.entity.ts:160-164 | attempts exactly `AWAITING_APPROVAL` |
| ServiceOrders.ServiceOrder.MarkApproved | src/domain/service-orders/entities/service-order.entity.ts:169-173 | attempts exactly `APPROVED` |
| ServiceOrders.ServiceOrder.MarkRejected | src/domain/service-orders/entities/service-order.entity.ts:178-182 | attempts exactly `REJECTED` |
| ServiceOrders.ServiceOrder.MarkScheduled | src/domain/service-orders/entities/service-order.entity.ts:187-191 | attempts exactly `SCHEDULED` |
| ServiceOrders.ServiceOrder.MarkInExecution | src/domain/service-orders/entities/service-order.entity.ts:196-200 | attempts exactly `IN_EXECUTION` |
| ServiceOrders.ServiceOrder.MarkFinished | src/domain/service-orders/entities/service-order.entity.ts:205-209 | attempts exactly `FINISHED` |
| ServiceOrders.ServiceOrder.MarkDelivered | src/domain/service-orders/entities/service-order.entity.ts:214-218 | attempts exactly `DELIVERED` |
| ServiceOrders.ServiceOrder.Cancel | src/domain/service-orders/entities/service-order.entity.ts:223-228 | succeeds exactly when the order is not already cancelled, and only then records the reason; a refusal leaves status, reason and update time |
| ServiceOrders.ServiceOrder.UpdateDeliveryDate | src/domain/service-orders/entities/service-order.entity.ts:242-245 | in any status, only the delivery date and the update time change |
| ServiceOrders.ServiceOrder.UpdateNotes | src/domain/service-orders/entities/service-order.entity.ts:250-253 | in any status, only the notes and the update time change |
| ServiceOrders.ServiceOrder.IsInFinalState | src/domain/service-orders/entities/service-order.entity.ts:258-265 | holds exactly for `DELIVERED`, `CANCELLED` and `REJECTED`, and from those only final statuses are reachable |
| ServiceOrders.LifecycleScenario | src/domain/service-orders/entities/service-order.entity.spec.ts:164-177 | an order created as received reaches `DELIVERED` step by step, and cannot then be set back to `REQUESTED` |
| ServiceOrders.RefusedTransitionsScenario | src/domain/service-orders/entities/service-order.entity.spec.ts:156-194 | a new order cannot skip reception or jump to `FINISHED`; once cancelled, with its reason recorded, it cannot be received |

Members without a row are proof steps for the members above. They model
no source lines of their own:
- `ServiceOrderStatuses.StepAllowed` and `RunCons` state `Run` one step at
  a time.
- `ServiceOrderStatuses.ExecutionToDelivery`, `ApprovalThroughScheduling`
  and `ApprovalStraightToExecution` are the stages of `HappyPath`.
- `StatusTransitionErrors.TotalLength` is the sum of part lengths in
  `JoinLength`, used for the messages that `Message` builds.
- `ServiceOrders.DiagnoseAndApprove` and `ExecuteAndDeliver` are the two
  halves of `LifecycleScenario`.
- `Text.NotBlank` and `Text.BlankSamples` serve the blank-input examples.
- The other unlisted lemmas each settle one step for the member beside
  them. In `Text` and the value-object modules these are character-level
  facts, such as `Text.NoWhitespaceIgnoresCase` or
  `Vins.ForbiddenLetterSurvivesTrim`. In the `...Examples` modules each one
  fixes a fact about a literal, such as a checksum or a slice.

## Left out

- Text: whitespace, upper case and lower case are ASCII only. JavaScript's
  `\s`, `toUpperCase` and `toLowerCase` cover all of Unicode.
- The wall clock (`new Date()`) is a `now: nat` parameter, and a date is a
  `nat`. The tests that compare the update time before and after a real
  wait are not modelled.
- `year` is an `int`. A JavaScript number may also be fractional, NaN or
  infinite.
- `ServiceOrderStatus` comes from a generated database client that is not
  part of this model. Its 11 values and their names (`REQUESTED`, …,
  `CANCELLED`) are taken from the transition table.
- Repositories, use cases, the HTTP bootstrap (`src/main.ts`) and the
  event publisher are not part of this model.
- `Error.captureStackTrace` and the JavaScript `Error` machinery of the
  domain exception are left out. Only the code, `name` equal to the
  code, and the message are modelled.
- BaseEntities.BaseEntity.Equals: the `instanceof BaseEntity` guard is
  left out, because every argument Dafny can pass is a `BaseEntity`.
- Plain getters (`id`, `name`, `status`, `email`, `licensePlate`, …) are
  the class fields themselves, read directly.
- Clients.Client.GetFormattedCpfCnpj, GetRawCpfCnpj, GetNormalizedEmail and
  the Vehicles getters require the held value object to be valid. In the
  source that holds because the value objects' constructors are private,
  so every instance comes from `create`.
- The regular-expression replaces (`/\D/g`, `/[^A-Z0-9]/g`) are modelled
  as a character filter (`Text.Keep`). The grammars (`/^[A-Z]{3}[0-9]{4}$/`
  and the others) are written as predicates.
- Emails: the stored value is `ToLower(trim(input))`. Create only accepts
  inputs without whitespace, so the trim never changes anything there, and
  Create's contract states the lower-cased input.
