# Deterministic synthetic user generator, in Dafny

This project models the data generator of the caching demo (`scripts/generateUsers.ts`):
`generateUsers(count)` builds `count` user-profile records whose every field is integer
arithmetic on the record id `i` (`%`, integer division, small offsets) indexing fixed string
tables, and the command-line guard in front of it rejects a count that is not a positive
number before anything is generated.

Modules:

- `Wrappers` (`wrappers.dfy`): `Option` (an absent optional field) and `Result`.
- `Text` (`text.dfy`): the decimal rendering of a non-negative integer that a template
  literal produces, its inverse, ASCII lower-casing, and splitting at a space.
- `UserModel` (`user.dfy`): the record (`User`, `Project`, `SocialLinks`, `Preferences`,
  `Stats`) as declared in `scripts/generateUsers.ts:4-31` and `types/user.ts:1-28`; the
  optional social handles are `Option<string>`.
- `Generator` (`generator.dfy`): the string tables, one function per field rule, `UserAt(i)`
  (the record for id `i`, assembled from those rules; skills and projects are sequence
  comprehensions), and the loops of the source as methods: `BuildSkills`, `BuildProjects`
  (the inner `for` loops) and `GenerateUsers` (the outer loop appending one record per id),
  each proved against those functions. Since `UserAt(i)` takes every field from the function
  for its rule, a lemma about `SkillsOf(i)`, `ProjectsOf(i)`, `DisplayName(i)`, `Email(i)` or
  `Avatar(i)` is a statement about that field of record `i`.
- `UserProperties` (`properties.dfy`): what holds of every record and of every generated
  sequence.
- `Cli` (`cli.dfy`): the argument guard and the guarded run.

JavaScript's `i % n` and `Math.floor(i / n)` agree with Dafny's `%` and `/` here because
every id is at least 1. Skill tags of a record never repeat: at most 7 consecutive positions
of the 16 distinct vocabulary entries are taken. A missing argument is not an error: it
selects the default count of 10,000.

## Model

| member | source | states |
|---|---|---|
| `Generator.GenerateUsers` | scripts/generateUsers.ts:34-112 | returns exactly `count` records (none when `count <= 0`), record at position `k` has id `k + 1` and equals the record rule for that id |
| `Generator.UserAt` | scripts/generateUsers.ts:59-108 | the record for id `i`: every field from its rule (`DisplayName`, `Email`, `Avatar`, the `i % 10` table entries, `SkillsOf`, `ProjectsOf`, `Twitter`/`LinkedIn`/`GitHub`, `PreferencesOf`, `StatsOf`); its contract gives the id, the list lengths `3 + i % 5` and `2 + i % 3` and the three presence rules; the `UserProperties` lemmas state the rest |
| `Generator.RecordWith` | scripts/generateUsers.ts:81-108 | the record literal around given skills and projects lists: it carries the id and exactly those lists, its handles are present by the `id % 3`, `id % 2`, `id % 4` rules, and notifications are on exactly when a linkedin handle is present |
| `Generator.BuildSkills` | scripts/generateUsers.ts:63-68 | the skills loop yields `3 + i % 5` tags, tag `j` being the vocabulary entry at `(i + j) % 16` |
| `Generator.BuildProjects` | scripts/generateUsers.ts:70-79 | the projects loop yields `2 + i % 3` entries, entry `j` named at `(i + j) % 10`, described as "Led development of <name> using modern technologies and best practices", dated `2018 + (i + j) % 7` |
| `UserProperties.GenerationIds` | scripts/generateUsers.ts:58-82 | the ids of a generation are exactly `1..count`, strictly increasing (no gaps, no duplicates) |
| `UserProperties.GenerationDeterministic` | scripts/generateUsers.ts:34-112 | two generations for the same count are identical |
| `UserProperties.GenerationPrefix` | scripts/generateUsers.ts:58-109 | a generation for a smaller count is a prefix of one for a larger count |
| `UserProperties.SkillsRule` | scripts/generateUsers.ts:53-68 | a record has between 3 and 7 skill tags, `3 + id % 5` of them, consecutive in the vocabulary, and no tag repeats |
| `UserProperties.ProjectsRule` | scripts/generateUsers.ts:70-79 | a record has between 2 and 4 projects; each name, description and year follows the rule, every year lies in 2018..2024, and no project name repeats within a record |
| `UserProperties.SocialLinksPresence` | scripts/generateUsers.ts:92-96 | twitter present iff `id % 3 == 0`, linkedin iff `id % 2 == 0`, github iff `id % 4 == 0`; a github handle implies a linkedin one |
| `UserProperties.SocialLinksValues` | scripts/generateUsers.ts:93-95 | a present handle is built from the lower-cased first name (and last name for linkedin) and the id |
| `UserProperties.PreferencesRule` | scripts/generateUsers.ts:97-101 | the theme is one of light, dark, auto; the language one of en, es, fr, de, ja, zh; notifications is on iff the id is even, that is iff a linkedin handle is present |
| `UserProperties.StatsBounds` | scripts/generateUsers.ts:102-107 | followers in 100..5099, following in 50..1049, posts in 10..509, likes in 500..10499 |
| `UserProperties.DescriptiveFields` | scripts/generateUsers.ts:86-89 | bio, company, position and location are the table entries at `id % 10` |
| `UserProperties.NameRule` | scripts/generateUsers.ts:59-61 | the display name is first name at `id % 10`, last name at `(id / 10) % 10` and `id / 100`, space separated; email and avatar carry the id in their templates |
| `UserProperties.DisplayNameInjective` | scripts/generateUsers.ts:59-61 | records with different ids never share a display name |
| `UserProperties.EmailInjective` | scripts/generateUsers.ts:84 | records with different ids never share an email |
| `UserProperties.AvatarInjective` | scripts/generateUsers.ts:85 | records with different ids never share an avatar URI |
| `UserProperties.GeneratedRecordsDistinct` | scripts/generateUsers.ts:58-85 | no two records of a generation share a display name, an email address or an avatar URI |
| `UserProperties.GeneratedListsRule` | scripts/generateUsers.ts:63-79 | every record of a generation has 3 to 7 skill tags with none repeated and 2 to 4 projects with no name repeated, each year in 2018..2024 |
| `Text.NatToString` | scripts/generateUsers.ts:84 | the rendering of a number in a template is a non-empty string of decimal digits with a leading zero only for 0, which renders as the single digit `0` |
| `Text.StringToNatInverse` | scripts/generateUsers.ts:84 | reading a rendered number back gives that number |
| `Text.NatToStringInjective` | scripts/generateUsers.ts:61 | distinct numbers render differently |
| `Text.TemplateInjective` | scripts/generateUsers.ts:84-85 | a fixed prefix, a rendered number and a fixed suffix determine the number |
| `Text.ToLower` | scripts/generateUsers.ts:93-95 | lower-casing keeps the length, lower-cases every position and leaves no upper-case letter |
| `Cli.CheckCount` | scripts/generateUsers.ts:115-120 | no argument gives 10,000; a parsed argument is accepted iff it is a number greater than zero, and then it is the count |
| `Cli.GenerateFromArg` | scripts/generateUsers.ts:115-123 | a rejected argument yields the error and no records; an accepted one yields exactly the generation for that count |
| `Cli.GuardBoundaries` | scripts/generateUsers.ts:117-120 | 0, -5 and NaN are rejected, 1 is accepted, and a generation of one record holds only id 1 |
| `Cli.ThreeRecords` | scripts/generateUsers.ts:58-101 | a generation of three has ids 1, 2, 3; record 1 has the dark theme; record 3 has a twitter handle |

## Left out

- Writing the file, `JSON.stringify` and the console messages (scripts/generateUsers.ts:125-130) are I/O; the serialise-and-parse round trip of the output is therefore not modelled.
- `process.argv`, `process.exit` and the error message text: only the guard's decision is modelled, as `Cli.CheckCount`.
- `parseInt` (scripts/generateUsers.ts:115): the parsed value is an input (`CountArg.Parsed`), `None` standing for NaN; string-prefix parsing is not modelled.
- Number precision: JavaScript numbers are doubles; the model uses unbounded integers, which agree with the source while `13 * count` stays below 2^53.
- Text.NatToString: renders every number in plain decimal; JavaScript switches to exponent notation from 10^21 on, far beyond any count the script can allocate.
- Text.ToLower: ASCII lower-casing only, where `toLowerCase` is Unicode-aware; every name it is applied to is ASCII.
- Generator.GenerateUsers: the fields the source computes inline in the loop body come from the field functions, through `Generator.RecordWith`; only the two inner loops and the outer loop are written as loops.
- The API routes (app/api/users), the React components, the cost, load-time and byte-size estimators (floating point) and the browser memory helpers are not part of this model.
