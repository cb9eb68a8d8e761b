# rustybox applet registry, modelled in Dafny

rustybox is a multi-call binary: one executable that acts as hundreds of
command-line utilities ("applets"). Its applet table
(`applets/applet_tables.rs`) is a vector of descriptors built once. The
builder starts from an empty vector and runs 395 `push`es in source order,
each behind a `#[cfg(feature = "...")]` build flag. It then asserts that
every window of two adjacent entries has strictly ascending names. If that
assertion fails, construction panics instead of returning a table.

This project models that table and its builder:

- `applet.dfy` (module `Applet`) holds the descriptor. It has `name` and
  `main`, the id of the shared implementation. The `Entrypoint` is a tag
  (`CStyle`, returns a status; `SafeStyle`, never returns) plus the called
  path as written. `InstallLoc` has five directories, and `Usage` is the
  opaque included usage file. A `Candidate` is one push: a feature flag and
  a descriptor.
- `lex.dfy` (module `Lex`) defines the name order, `Less`. It is proved to
  be a strict total order, and it agrees with a position-based reference
  definition.
- `registry.dfy` (module `Registry`) defines the builder as a function:
  `Filter` keeps the enabled pushes, `Valid` is the `windows(2).all(<)`
  check, and `Build` returns the table or the panic. The lemmas cover the
  properties the builder promises.
- `construct.dfy` (module `Construct`) is the builder written as the source
  runs it: a push loop, then a short-circuiting scan of the windows. It is
  proved equal to `Build`.
- `table.dfy` (module `Table`) holds all 395 pushes of the source. The
  source's features, names, `main` ids, entry-point paths, install locations
  and usage paths are all copied into it. It proves that the full list is
  strictly ascending, so no feature selection makes the builder panic.
- `lookup.dfy` (module `Lookup`) is an exact-name lookup. It has a linear
  reference `Find` and a `BinarySearch` over a table that passed the check.
  The binary's resolver is not part of this model. These members only state
  what the ascending-name invariant guarantees to any exact lookup.
- `examples.dfy` (module `Examples`) covers concrete entries: `[`/`[[`,
  `fsck`/`fsck.minix` and `ping`/`ping6` coexist, aliases share an
  implementation, and swapped or duplicated pushes panic.

Names are compared as `seq<char>`. Rust's `<` on `&str` compares UTF-8 bytes.
UTF-8 preserves code-point order, so the two orders agree; every name in the
table is ASCII anyway.

## Model

| member | source | states |
|---|---|---|
| Lex.LessIrreflexive | applets/applet_tables.rs:3213 | no name is `<` itself, so the strict check rejects a repeated name |
| Lex.LessAsymmetric | applets/applet_tables.rs:3213 | two names are never each `<` the other |
| Lex.LessTransitive | applets/applet_tables.rs:3213 | the `&str` order used by the check is transitive |
| Lex.LessTotal | applets/applet_tables.rs:3213 | any two different names are ordered one way or the other |
| Lex.PrefixSortsFirst | applets/applet_tables.rs:50-65 | a proper prefix sorts strictly before its extension, so `[` and `[[` can both be in a valid table |
| Lex.LessIsLexLess | applets/applet_tables.rs:3213 | the character-wise `<` equals the textbook lexicographic order (proper prefix, or smaller at the first difference), both directions |
| Registry.Filter | applets/applet_tables.rs:48-3209 | the pushed table is no longer than the candidate list, and each entry comes from a candidate whose feature is enabled |
| Registry.FilterIsPositions | applets/applet_tables.rs:48-3209 | the table is exactly the enabled candidates, in source order: entry k is the candidate at the k-th enabled index, indices strictly increase, and every enabled index is used |
| Registry.FilterMembership | applets/applet_tables.rs:50-65 | an enabled candidate's descriptor is in the table; a disabled one whose descriptor appears nowhere else is not |
| Registry.FilterAllEnabled | applets/applet_tables.rs:48-3209 | with every feature enabled the table is the whole candidate list |
| Registry.FilterNoneEnabled | applets/applet_tables.rs:48-3209 | with no candidate's feature enabled the table is empty |
| Registry.Build | applets/applet_tables.rs:3211-3215 | construction succeeds iff the pushed table is globally strictly ascending; on success it returns that table unchanged, with unique names |
| Registry.ValidIffAscending | applets/applet_tables.rs:3211-3213 | the adjacent-window check holds iff every earlier name is `<` every later one |
| Registry.AdjacentChain | applets/applet_tables.rs:3213 | ascending adjacent windows chain into order between any two positions |
| Registry.AscendingNamesUnique | applets/applet_tables.rs:3212-3213 | a strictly ascending table has pairwise-distinct names (the "names should be unique" intent) |
| Registry.ValidConcat | applets/applet_tables.rs:3213 | two valid tables joined in order at an ascending seam form a valid table |
| Registry.FilterKeepsAscending | applets/applet_tables.rs:48-3213 | any feature-filtered subsequence of a strictly ascending candidate list is strictly ascending |
| Registry.MasterValidBuildsAll | applets/applet_tables.rs:48-3215 | if the full candidate list passes the check, every feature selection builds and yields its filtered table |
| Registry.ShortTableBuilds | applets/applet_tables.rs:3213 | a table of 0 or 1 entries has no window and always passes |
| Registry.UnsortedPanics | applets/applet_tables.rs:3213 | one adjacent pair out of order makes construction fail; nothing is reordered or repaired |
| Construct.AllWindowsAscending | applets/applet_tables.rs:3213 | the short-circuiting scan over `windows(2)` returns true iff the table is strictly ascending, and on false names an offending window |
| Construct.BuildTable | applets/applet_tables.rs:46-3215 | the push-then-assert builder succeeds iff the enabled pushes are strictly ascending, returns exactly them, and agrees with `Build` |
| Table.CandidatesValid | applets/applet_tables.rs:50-3209 | the 395 pushes as written are strictly ascending by name |
| Table.EveryBuildSucceeds | applets/applet_tables.rs:46-3215 | for every feature selection the builder does not panic and returns the enabled pushes in source order, with unique names |
| Lookup.Find | applets/applet_tables.rs:3211-3213 | exact-name lookup: a result is the first entry of the table with exactly that name; none iff no entry has that name |
| Lookup.FindUnique | applets/applet_tables.rs:3212-3213 | in a table with unique names, looking up an entry's own name returns that very entry |
| Lookup.BinarySearch | applets/applet_tables.rs:3211-3213 | binary search over a table that passed the check finds exactly the entry with that name, or reports none when no entry has it |
| Examples.ExcerptValid | applets/applet_tables.rs:50-65 | the excerpt `[`, `[[`, `bunzip2`, `bzcat`, `fsck`, `fsck.minix`, `ifdown`, `ifup`, `ping`, `ping6` passes the check despite its prefix names |
| Examples.ExcerptAlwaysBuilds | applets/applet_tables.rs:3211-3215 | every feature selection of the excerpt builds to its filtered table |
| Examples.AliasesResolveSeparately | applets/applet_tables.rs:1090-1121 | `ifdown`/`ifup` share `main` and entry point, and so do `bunzip2`/`bzcat` (lines 218-233), yet in any build that enables it each of `ifdown`, `ifup`, `bunzip2`, `bzcat` is looked up to its own entry |
| Examples.LookupIsExact | applets/applet_tables.rs:826-841 | lookup matches only exact names: `[` only finds `[`, and `fsck.` and `ping66` find nothing |
| Examples.SwappedPushesPanic | applets/applet_tables.rs:3213 | pushing `ifup` before `ifdown` makes construction fail |
| Examples.DuplicatePushPanics | applets/applet_tables.rs:3212-3213 | pushing two descriptors with the same name, under any features, makes construction fail |
| Examples.NoFeaturesBuildsEmpty | applets/applet_tables.rs:46-3215 | a build with no feature enabled yields the empty table |

## Left out

- Entry-point function pointers: the `unsafe fn(c_int, *mut *mut c_char)`
  and `fn(&[&str]) -> !` values are kept only as a tag plus the path text.
  Several paths in the table are malformed, e.g.
  `acpcrate::coreutils::id::id_main` at applets/applet_tables.rs:70, so the
  model does not say which function is really called.
- Usage text: `include_str!` pulls in a file at build time. The model keeps
  only the included path, as an opaque value.
- `lazy_static` laziness and its thread-safe one-time initialisation. This is
  a runtime mechanism; the model treats the table as a value computed once.
- The panic is modelled as a `Failure(NamesNotAscending)` result. Unwinding
  and aborting are not modelled.
- Set-user-ID policy: the header comment lists an `s` (suid type) column per
  applet, but the Rust `applet` struct at applets/applet_tables.rs:38-44 has
  no such field, so the model follows the struct and leaves the policy out.
- Name resolution from `argv[0]`, dispatch, the two calling conventions at
  run time, privilege handling and the usage-text provider are not part of
  this model. Their source is not among the modelled files. `Lookup` only
  states what the sortedness invariant guarantees to an exact lookup.
- `procps/lsof.rs` (directory scanning and printing through raw pointers)
  and `librb/mod.rs` (C-layout type declarations) are not part of this model.
- Install locations are kept as the five enum values. Their mapping to
  directories belongs to the installer and is not modelled.
