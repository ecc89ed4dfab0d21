# Theme palettes and fixture seeding, modelled in Dafny

This project models the two small pieces of logic in the repository.

**Theme generator (`theme.dfy`, module `Theme`), from `tailwind.config.ts`.**
`generateThemeObject` takes a colour table (colour name → shade key → colour
value), a shade mapping and an `invert` flag. For every base colour (gray, red,
yellow, green, blue, indigo, purple, pink) and every key `k` of the mapping, it
writes `theme[color][k]`. The value is the table entry at shade `k`, or at
`mapping[k]` when `invert` is set. The light palette is built without
inversion and the dark palette with it. The `themes` literal then spreads each
palette and adds override tokens: `white = "#ffffff"` for light, and
`white = gray.950` and `black = gray.50` for dark.

- `GenerateThemeObject` is a method with the source's two nested loops. It is
  proved equal to the function `Derived`.
- A table lookup yields a `Token`: the stored value, or `Undefined` when the
  shade is missing. This mirrors JavaScript's `undefined`.
- Shade keys such as `"50"` are modelled by their numeric value.

**Fixture loader (`seed.dfy`, module `Seed`), from `server/prisma/seedData/seed.ts`.**
The script clears the tables named by a fixed list of JSON file names, in
list order. It then inserts each file's rows, in the same order, and finally
disconnects.

The environment `Env` is abstract:

- The Prisma client is its key list in order. Each key records what `typeof`
  shows (`Null`, an object with or without `deleteMany`/`createMany`, or
  something else).
- The filesystem is a map from file name to
  `Missing | BadJson | NonArray | Array(records)`.
- Two maps say which client keys have failing calls, and how each failure
  rejects.

A run is a trace of events: `DeleteMany(key)`, `CreateMany(key, records)`,
`Disconnect`, and abstract log entries.

- `ClearStep`, `SeedStep`, `RunPhase`, `MainRun` and `SeedRun` are pure
  functions that give the trace.
- The class `Seeder` performs the same run one call at a time. Each method is
  proved to append exactly the trace those functions give.

A call can reject with an Error value, or with `null`/`undefined`. An Error
value is caught and logged. `null`/`undefined` makes `(error as Error).message`
throw inside the handler. That exception escapes `main`, is logged by the
outer `.catch`, and the `.finally` disconnect still runs. The model uses this
path (`aborted`) for "main throws".

Two facts about the theme code:

- The light palette is an identity copy: slot `[c][k]` reads the table at `k`
  (`tailwind.config.ts:35`). The dark palette reads `mapping[k]`. So
  `light.blue["50"]` is the table's `blue["50"]`, and `dark.blue["50"]` is the
  table's `blue["900"]` (`BlueFiftyExample`).
- The shade mapping is an involution (`tailwind.config.ts:17-26`;
  `ShadeMappingIsInvolution`).

## Model

| member | source | states |
|---|---|---|
| `Theme.Derived` | tailwind.config.ts:29-40 | The generated palette is total: its colours are exactly the base colours, and every colour's shade keys are exactly the mapping's keys. |
| `Theme.GenerateThemeObject` | tailwind.config.ts:29-40 | The nested loops, which fill `theme[color][key]` in place, return exactly the palette `Derived` describes, whatever order the mapping's entries are visited in. |
| `Theme.PaletteIsTotal` | tailwind.config.ts:5-27 | For the configured mapping, each of the eight base colours gets exactly the ten shades 50..900, for both palettes and for any table. |
| `Theme.LightPaletteCopiesTable` | tailwind.config.ts:35-36 | Without inversion, slot `[c][k]` holds the table's own `[c][k]` (or undefined if the table lacks it). The light palette is an identity copy. |
| `Theme.DarkPaletteReadsMappedShade` | tailwind.config.ts:35-36 | With inversion, slot `[c][k]` holds the table's `[c][mapping[k]]`. |
| `Theme.ShadeKeysAreMappingKeys` | tailwind.config.ts:16-27 | The mapping has exactly ten distinct keys, 50, 100, …, 900. |
| `Theme.ShadeMappingIsInvolution` | tailwind.config.ts:16-27 | Every mapped shade is itself a key, and mapping it again gives back the original key. |
| `Theme.InvolutionIsBijection` | tailwind.config.ts:16-27 | Any involution is injective, and its set of values equals its set of keys. |
| `Theme.ShadeMappingIsBijection` | tailwind.config.ts:16-27 | The shade mapping maps its ten keys one-to-one onto those same ten keys. |
| `Theme.DarkMirrorsLight` | tailwind.config.ts:34-36 | For an involutive mapping, dark slot `[c][mapping[k]]` equals light slot `[c][k]` for every colour and key. |
| `Theme.DarkMirrorsLightForShadeMapping` | tailwind.config.ts:42-43 | The same mirror property holds for the configured light and dark palettes. |
| `Theme.BlueFiftyExample` | tailwind.config.ts:42-43 | Given any table whose blue row has 50 = "A" and 900 = "I" (other shades arbitrary): `light.blue.50 = "A"`, `dark.blue.50 = "I"`, `dark.blue.900 = "A"`. |
| `Theme.ConfigureThemes` | tailwind.config.ts:42-56 | Running the generator twice and building the `themes` literal gives exactly `BuildThemes(colors)`. |
| `Theme.BuildThemes` | tailwind.config.ts:45-56 | The `themes` literal: light has exactly the base colours plus `white`; dark has exactly the base colours plus `white` and `black`. |
| `Theme.ThemesLayerOverrides` | tailwind.config.ts:45-56 | Light has the base colours plus `white = "#ffffff"` and no `black`. Dark has the base colours plus `white = gray.950` and `black = gray.50`. Every base colour's row is the unchanged palette row. |
| `Seed.ModelName` | server/prisma/seedData/seed.ts:31-33 | The model name is a prefix of the file name. It is either the whole name, or a non-empty stem followed by the last dot, with no dot after that. |
| `Seed.ModelNameStripsExtension` | server/prisma/seedData/seed.ts:31-33 | For a non-empty stem and a dot-free extension, `stem.ext` yields `stem`. |
| `Seed.OrderedModelNames` | server/prisma/seedData/seed.ts:61-71 | The nine files of the load order resolve to the model names products, expenseSummary, sales, salesSummary, purchases, purchaseSummary, users, expenses and expenseByCategory. |
| `Seed.LowerChar` | server/prisma/seedData/seed.ts:15 | ASCII `toLowerCase` of one character: the result is never an upper-case letter; an upper-case letter maps to the lower-case letter at the same alphabet position; any other character is unchanged. |
| `Seed.Lower` | server/prisma/seedData/seed.ts:15 | `toLowerCase` of a string: same length, no upper-case letter left, every upper-case letter replaced by the lower-case letter at the same alphabet position, every other character unchanged. |
| `Seed.FindFrom` | server/prisma/seedData/seed.ts:14-16 | Returns the first index whose key lowercases to the name's lowercase. Every earlier key differs. None means no key matches. |
| `Seed.Resolve` | server/prisma/seedData/seed.ts:13-24 | Looks only at the first case-insensitive match. It returns that member exactly when the key is non-empty and the value is an object; otherwise it returns nothing, also when no key matches. |
| `Seed.ResolveIgnoresCase` | server/prisma/seedData/seed.ts:13-16 | Names that lowercase alike resolve to the same result. |
| `Seed.ClearStep` | server/prisma/seedData/seed.ts:36-50 | One delete iteration: it throws out of the loop exactly when the model supports `deleteMany` and that call rejects with null/undefined, and then its last event is that `DeleteMany`. Otherwise it ends with a console line. An unresolved name starts with the not-found line. |
| `Seed.SeedStep` | server/prisma/seedData/seed.ts:77-113 | One insert iteration: it throws out of the loop exactly when the file holds an array, the model supports `createMany` and that call rejects with null/undefined, and then its last event is the `CreateMany` carrying the file's records. Otherwise it ends with a console line. |
| `Seed.MainRun` | server/prisma/seedData/seed.ts:57-117 | `main`'s trace begins with the whole clearing phase. It throws exactly when one of the phases throws. When it does not throw, its last event is the completion line. |
| `Seed.SeedRun` | server/prisma/seedData/seed.ts:120-126 | The script's trace extends `main`'s by two events when `main` throws and by one otherwise. It ends with `Disconnect`, and when `main` throws, the event before the disconnect is the fatal log. |
| `Seed.Seeder.CallDeleteMany` | server/prisma/seedData/seed.ts:39 | Records one `DeleteMany` call on the delegate and returns how it rejects, if it does. |
| `Seed.Seeder.CallCreateMany` | server/prisma/seedData/seed.ts:107-109 | Records one `CreateMany` call carrying the given records and returns how it rejects, if it does. |
| `Seed.Seeder.GetModel` | server/prisma/seedData/seed.ts:13-24 | Returns `Resolve`'s answer. It logs "model not found" exactly when that answer is nothing. |
| `Seed.Seeder.ClearModel` | server/prisma/seedData/seed.ts:36-50 | One delete iteration appends exactly that iteration's `ClearStep` trace. It reports an abort exactly when the step aborts. |
| `Seed.Seeder.DeleteAllData` | server/prisma/seedData/seed.ts:30-52 | Appends exactly the clearing phase's trace over the given file names. It reports an abort exactly when the phase aborts. |
| `Seed.Seeder.SeedFile` | server/prisma/seedData/seed.ts:77-113 | One insert iteration, with its four early `continue`s, appends exactly that iteration's `SeedStep` trace. |
| `Seed.Seeder.InsertAllData` | server/prisma/seedData/seed.ts:76-114 | Appends exactly the seeding phase's trace over the given file names. |
| `Seed.Seeder.SeedDatabase` | server/prisma/seedData/seed.ts:57-117 | Clears, then seeds, then logs completion. It appends exactly the `MainRun` trace. |
| `Seed.Seeder.Run` | server/prisma/seedData/seed.ts:120-126 | The script's entry appends `SeedRun` over the fixed load order: main's trace, a fatal log if main threw, then one disconnect. |
| `Seed.StepCallsArePlanned` | server/prisma/seedData/seed.ts:35-51 | Within a single iteration, the store calls are exactly the planned call, however the store answers. A failing call is still made once. |
| `Seed.ArrayFileInsertedWhole` | server/prisma/seedData/seed.ts:96-110 | An array file whose model supports `createMany` gets exactly one `CreateMany`. It carries the whole array, unchanged and in order. |
| `Seed.SkippedFileContinues` | server/prisma/seedData/seed.ts:78-94 | A missing, unparsable or non-array file plans no call and emits exactly one log entry of the matching kind. It does not abort, so the loop goes on. |
| `Seed.FoldAppend` | server/prisma/seedData/seed.ts:35-51 | A phase over `a + b` is the phase over `a` followed by the phase over `b`, unless an exception escaped during `a`. What happened to earlier names does not change how later names are handled. |
| `Seed.AbortIsFinal` | server/prisma/seedData/seed.ts:35-114 | Once an exception has escaped, the rest of the list adds nothing to the phase. |
| `Seed.PhaseCompletes` | server/prisma/seedData/seed.ts:41-45 | If every failure rejects with an Error value, neither phase aborts. Every name is attempted. |
| `Seed.PhaseCallsFollowPlan` | server/prisma/seedData/seed.ts:35-51 | A phase's store calls are always a prefix of its planned calls (one per eligible name, in list order). They are the whole plan when the phase does not abort. |
| `Seed.PhaseEventKinds` | server/prisma/seedData/seed.ts:35-51 | The clearing phase never inserts and the seeding phase never deletes. Neither phase disconnects. |
| `Seed.DeletesPrecedeCreates` | server/prisma/seedData/seed.ts:74-76 | In every run, every `DeleteMany` event comes before every `CreateMany` event. |
| `Seed.DisconnectIsLastAndOnce` | server/prisma/seedData/seed.ts:120-126 | Every run in which each store call settles ends with `Disconnect`, and no earlier event is a `Disconnect`, whether main completes or throws. |
| `Seed.FatalOnlyWhenMainThrows` | server/prisma/seedData/seed.ts:116-123 | The event just before the disconnect is the fatal log exactly when main threw. |
| `Seed.RunCallsFollowPlan` | server/prisma/seedData/seed.ts:57-126 | If every failure rejects with an Error value, the run's store calls are all planned deletes in load order, then all planned inserts in load order, then one disconnect. |
| `Seed.NullishRejectionSkipsLaterNames` | server/prisma/seedData/seed.ts:35-51 | For a client with deletable delegates `a` and `b` whose `a.deleteMany` rejects with null: the plan is to delete both, but the clearing phase aborts after the delete of `a`, and `b` is never cleared. |
| `Seed.CaughtPhaseFollowsPlan` | server/prisma/seedData/seed.ts:41-45 | With handlers that log every rejection and continue, a phase never aborts, and its store calls are exactly its planned calls in order, however the store rejects. |

## Left out

- Theme.GenerateThemeObject: requires every base colour to be a key of the colour table. In the source a missing colour makes `colors[color][shadeKey]` throw a TypeError at configuration load; the table is a closed library constant, so that path is not modelled. A missing shade is modelled (it reads as `Undefined`).
- Theme.GenerateThemeObject: the inner loop visits the mapping's keys in an unspecified order, not the ascending order that `Object.entries` uses for integer-like keys. The result is the same for every order. Shade keys are modelled as numbers, not strings.
- The concrete colour values of `tailwindcss/colors`, the `createThemes` plugin and the rest of the Tailwind configuration object (`darkMode`, `content`, `backgroundImage`) are foreign library configuration and are not modelled.
- Seed.Seeder.SeedDatabase: is given the load order as a parameter; `Run` passes `OrderedFileNames`, the list the script's `main` declares. The bodies of the two loops are the separate methods `ClearModel` and `SeedFile`, and main's insert loop is `InsertAllData`; a `continue` in the source is an early return of `SeedFile`.
- Seed.Seeder.DeleteAllData: derives each model name inside its loop instead of first mapping the whole list to model names; the mapping is pure, so the calls and logs are the same.
- The Prisma client, database semantics of `deleteMany`/`createMany` (foreign keys, partial inserts), `fs.existsSync`, `readFileSync`, `JSON.parse` and `path.join` are replaced by `Env`. Whether a call fails is fixed per client key, not per call. A read error and a parse error both count as `BadJson`, since one `try` covers both.
- Record contents are opaque (field name → JSON text); nothing in the code looks inside them.
- Console output is recorded as abstract log entries without message text. The file-not-found entry carries the file name, not the joined path.
- Every store call is assumed to settle (resolve or reject); the source has no timeout, so a call that never settles blocks the script before `$disconnect`. `DisconnectIsLastAndOnce` and `Seeder.Run` speak only of runs in which every call settles.
- A rejection of `$disconnect` itself, and async scheduling, are not modelled; every call is awaited in sequence, so the model is sequential.
- `toLowerCase` is ASCII only. `path.basename`/`path.extname` are modelled for names without directories. The name `..` yields `.` here; Node returns `..`.
- `server/dist/prisma/seedData/seed.js` is the compiled form of `seed.ts` with promise plumbing and is not modelled separately.
- The delete phase runs in load order, not reverse load order. Whether that breaks under foreign-key constraints depends on the database schema, which is not part of this model.

## Findings

The catch blocks of both loops format `(error as Error).message`. If a call
rejects with `null` or `undefined`, reading `.message` throws inside the
handler. The loop then stops and `main` throws. The driver (`Seeder`) models
the code as written, so that its trace is the program's. The corrected
handlers are the separate definition `CaughtStep`/`CaughtPhase`.

| source | as written | input that shows it | evidently intended | confidence | as-written member | corrected member |
|---|---|---|---|---|---|---|
| server/prisma/seedData/seed.ts:41-45 | a rejection with `null`/`undefined` makes the handler throw, ending the loop and `main` (the insert handler at line 111 does the same) | client keys `a`, `b`, both with `deleteMany`; `a.deleteMany` rejects with `null`; the calls are `[DeleteMany(a)]` against the plan `[DeleteMany(a), DeleteMany(b)]` | every rejection is logged and the loop goes on with the next name | low (Prisma rejects with Error objects), not executed | `Seed.NullishRejectionSkipsLaterNames` | `Seed.CaughtPhaseFollowsPlan` |
