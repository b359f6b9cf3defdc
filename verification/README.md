# java7-fs-base path names and options, in Dafny

This project models two parts of java7-fs-base, a base library for writing
java.nio.file filesystem providers.

**The path-name engine (`PathNamesFactory`).** A path string is split into a
`PathNames` value: an optional root component and an ordered sequence of
name elements. Four operations work on that value without any I/O:

- parsing (`toPathNames`);
- lexical normalisation (`normalize`);
- resolution (`resolve`, `resolveSibling`);
- printing (`toString`).

Six hooks decide everything that depends on the path syntax: `rootAndNames`,
`splitNames`, `isValidName`, `isSelf`, `isParent` and `isAbsolute`. In
Java they are abstract methods. Here they are function-valued fields of the
datatype `PathFactory.PathNamesFactory`, next to the root separator and the
name separator.

- `normalize`, `toString` and `toPathNames` are loops in the source. They are
  methods here, each proved equal to a specification function
  (`NormalizeScan`, `CanonicalString`, `Parse`). The properties are then
  lemmas about those functions.
- `normalize` keeps the source's scratch array, write index and
  `seenRegularName` flag.
- `resolve` and `resolveSibling` are functions that return a `Result`.

`UnixPaths` is a Unix-style reference syntax: root `/`, separator `/`, self
name `.` and parent name `..`. It is used for concrete scenarios and for the
print-then-parse round trip.

**The option validator (`FileSystemOptionsFactory`).** A class holds four sets
of supported options: read-open, write-open, copy and link. Protected `add*`
methods grow these sets. Four `compile*` methods check a caller's options
against them. Each either returns a fresh set or raises `UnsupportedOption`
or `IllegalOptionSet`. Java's option interfaces become subset types of one
datatype `Opt`. `LinkOption` is both an `OpenOption` and a `CopyOption`, as in
java.nio.file.

Behaviour stated exactly as the code has it:

- The `seenRegularName` flag in `normalize` is never reset. So a late parent
  name can cancel a parent name that was kept earlier: both `a/../../..` and
  `../a/../..` normalise to no names at all (`NormalizeNeverResetsFlag`).
  Normalisation is still idempotent for every input (`NormalizeIdempotent`).
- With the default options, SPARSE is in both the read set and the write set.
  So `compileReadOptions` and `compileWriteOptions` both reject it.
- Once `addLinkOption(NOFOLLOW_LINKS)` has been called, the two open-mode
  compile methods reject NOFOLLOW_LINKS for the same reason.

## Model

| member | source | states |
|---|---|---|
| `Paths.Parent` | src/main/java/com/github/fge/filesystem/path/PathNamesFactory.java:241-242 | parent() as assumed: None exactly when there are no names; otherwise the same root, with names that give back the original once its last name is appended |
| `PathFactory.FirstInvalid` | src/main/java/com/github/fge/filesystem/path/PathNamesFactory.java:149-152 | the index of the first name the validity hook rejects, in scan order; None exactly when every name is valid |
| `PathFactory.ParseOutcome` | src/main/java/com/github/fge/filesystem/path/PathNamesFactory.java:141-154 | parsing fails exactly when some split name is invalid; the error carries the input and the first invalid name; on success the root and the split names are returned unchanged (no normalisation) |
| `PathFactory.ToPathNames` | src/main/java/com/github/fge/filesystem/path/PathNamesFactory.java:141-154 | the validation loop returns exactly the parse outcome |
| `PathFactory.NormalizeScan` | src/main/java/com/github/fge/filesystem/path/PathNamesFactory.java:170-204 | the normalised output is never longer than the input |
| `PathFactory.Normalize` | src/main/java/com/github/fge/filesystem/path/PathNamesFactory.java:168-205 | the imperative loop (scratch array, write index, flag) keeps the root and yields exactly the names of the one-pass normalisation |
| `PathFactory.NormalizeScanShape` | src/main/java/com/github/fge/filesystem/path/PathNamesFactory.java:175-201 | the output has no self names; it is zero or more parent names followed only by regular names; the flag is set exactly when a regular name occurs in the input, even if that name was cancelled later; while the flag is unset the output holds only parent names |
| `PathFactory.NormalizedIsSubsequence` | src/main/java/com/github/fge/filesystem/path/PathNamesFactory.java:177-201 | the names that survive normalisation are a subsequence of the input, in input order |
| `PathFactory.NormalizeFixesCompacted` | src/main/java/com/github/fge/filesystem/path/PathNamesFactory.java:177-201 | a name sequence of parents followed by regulars, with no self names, comes through normalisation unchanged |
| `PathFactory.NormalizeIdempotent` | src/main/java/com/github/fge/filesystem/path/PathNamesFactory.java:168-205 | normalising twice gives the same names as normalising once |
| `PathFactory.NormalizeKeepsRegularNames` | src/main/java/com/github/fge/filesystem/path/PathNamesFactory.java:186-190 | a sequence of only regular names is returned unchanged |
| `PathFactory.Resolve` | src/main/java/com/github/fge/filesystem/path/PathNamesFactory.java:212-235 | an absolute second path is returned as is; a rooted second path that is not absolute fails with UnsupportedOperationException; otherwise the result has the first path's root and its names followed by the second path's names (the first path itself when the second has no names) |
| `PathFactory.ResolveSibling` | src/main/java/com/github/fge/filesystem/path/PathNamesFactory.java:238-243 | a first path with no names (no parent) yields the second path; otherwise the result is resolve against the first path without its last name, with resolve's failure |
| `PathFactory.ResolveSiblingOfFileName` | src/main/java/com/github/fge/filesystem/path/PathNamesFactory.java:238-243 | resolving a path's last name as its own sibling gives the path back, when that name alone is not absolute |
| `PathFactory.ToString` | src/main/java/com/github/fge/filesystem/path/PathNamesFactory.java:246-266 | the StringBuilder loop yields the root (if any), then the root separator only when there are both a root and names, then the names joined by the separator; the empty path prints as "" and a root-only path as its root |
| `PathFactory.ResolvePrintsJoined` | src/main/java/com/github/fge/filesystem/path/PathNamesFactory.java:227-234 | printing a path with at least one name, resolved against a relative path with at least one name, gives the base's string, the separator, then the relative path's string |
| `UnixPaths.PrintParseRoundTrip` | src/main/java/com/github/fge/filesystem/path/PathNamesFactory.java:246-266 | with the Unix syntax, printing a path with valid names and root "/" or none, then parsing the result, gives the same path back |
| `UnixPaths.ParseAbsoluteExample` | src/main/java/com/github/fge/filesystem/path/PathNamesFactory.java:141-154 | "/a/b/c" parses to root "/" and names a, b, c |
| `UnixPaths.NormalizeCancelExample` | src/main/java/com/github/fge/filesystem/path/PathNamesFactory.java:186-200 | a, .., b normalises to b |
| `UnixPaths.NormalizeLeadingParentExample` | src/main/java/com/github/fge/filesystem/path/PathNamesFactory.java:197-200 | .., a normalises to .., a (a leading parent name is kept) |
| `UnixPaths.NormalizeTrailingParentsExample` | src/main/java/com/github/fge/filesystem/path/PathNamesFactory.java:197-200 | a, .., .. normalises to .. |
| `UnixPaths.NormalizeNeverResetsFlag` | src/main/java/com/github/fge/filesystem/path/PathNamesFactory.java:175-200 | because the flag is never reset, a, .., .., .. and .., a, .., .. both normalise to no names |
| `UnixPaths.ResolveExample` | src/main/java/com/github/fge/filesystem/path/PathNamesFactory.java:227-234 | resolving c against /a/b gives /a/b/c |
| `UnixPaths.ResolveSiblingExample` | src/main/java/com/github/fge/filesystem/path/PathNamesFactory.java:241-242 | resolving c as a sibling of /a/b gives /a/c |
| `UnixPaths.PrintRootOnlyExample` | src/main/java/com/github/fge/filesystem/path/PathNamesFactory.java:249-256 | a root with no names prints as the root alone |
| `Options.CollectSupported` | src/main/java/com/github/fge/filesystem/options/FileSystemOptionsFactory.java:138-142 | the shared loop succeeds exactly when every option is supported, and then returns the set of the given options; otherwise it reports the first unsupported option in input order |
| `Options.FileSystemOptionsFactory.constructor` | src/main/java/com/github/fge/filesystem/options/FileSystemOptionsFactory.java:79-89 | defaults: copy {REPLACE_EXISTING}; write {CREATE, CREATE_NEW, SPARSE, TRUNCATE_EXISTING, WRITE}; read {READ, SPARSE}; link {}; so every link option is in the read, write and copy sets |
| `Options.FileSystemOptionsFactory.CompileReadOptions` | src/main/java/com/github/fge/filesystem/options/FileSystemOptionsFactory.java:103-121 | IllegalOptionSet exactly when some option is supported for write (checked first); otherwise UnsupportedOption names a given option outside the read set; success exactly when every option is in the read set and none is in the write set, with the given options plus READ; the four sets are not modified |
| `Options.FileSystemOptionsFactory.CompileWriteOptions` | src/main/java/com/github/fge/filesystem/options/FileSystemOptionsFactory.java:135-153 | UnsupportedOption exactly when some option is outside the write set, naming the first one in input order; otherwise IllegalOptionSet exactly when some option is in the read set; success exactly when all options are in the write set and none is in the read set, with the given options plus WRITE; nothing is modified |
| `Options.FileSystemOptionsFactory.CompileCopyOptions` | src/main/java/com/github/fge/filesystem/options/FileSystemOptionsFactory.java:162-172 | success exactly when every option is in the copy set, returning exactly the given options; otherwise UnsupportedOption for the first unsupported option; nothing is modified |
| `Options.FileSystemOptionsFactory.CompileLinkOptions` | src/main/java/com/github/fge/filesystem/options/FileSystemOptionsFactory.java:175-185 | success exactly when every option is in the link set, returning exactly the given options; otherwise UnsupportedOption for the first unsupported option; nothing is modified |
| `Options.FileSystemOptionsFactory.AddReadOpenOption` | src/main/java/com/github/fge/filesystem/options/FileSystemOptionsFactory.java:192-195 | adds to the read set only; keeps every link option in the read, write and copy sets |
| `Options.FileSystemOptionsFactory.AddWriteOpenOption` | src/main/java/com/github/fge/filesystem/options/FileSystemOptionsFactory.java:202-205 | adds to the write set only; keeps every link option in the read, write and copy sets |
| `Options.FileSystemOptionsFactory.AddOpenOption` | src/main/java/com/github/fge/filesystem/options/FileSystemOptionsFactory.java:212-216 | adds to both the read and write sets, and to nothing else; keeps every link option in the read, write and copy sets |
| `Options.FileSystemOptionsFactory.AddCopyOption` | src/main/java/com/github/fge/filesystem/options/FileSystemOptionsFactory.java:223-226 | adds to the copy set only; keeps every link option in the read, write and copy sets |
| `Options.FileSystemOptionsFactory.AddLinkOption` | src/main/java/com/github/fge/filesystem/options/FileSystemOptionsFactory.java:233-238 | adds to the link, read, write and copy sets; keeps every link option in the read, write and copy sets |
| `Options.FileSystemOptionsFactory.LinkOptionIsRefusedForOpen` | src/main/java/com/github/fge/filesystem/options/FileSystemOptionsFactory.java:233-238 | whatever options were added, as long as every link option is also in the read, write and copy sets (which addLinkOption arranges), a link option alone is refused for read and for write as an illegal set and accepted for copy |
| `Options.DefaultsRejectOpenOptionsOfTheOtherMode` | src/main/java/com/github/fge/filesystem/options/FileSystemOptionsFactory.java:105-145 | with the defaults, SPARSE is refused by both open-mode compile methods as an illegal set; WRITE is refused for read as an illegal set; READ is refused for write as unsupported |
| `Options.DefaultsAddTheModeOption` | src/main/java/com/github/fge/filesystem/options/FileSystemOptionsFactory.java:117-148 | with the defaults, no options gives {READ} for read and {WRITE} for write; CREATE and TRUNCATE_EXISTING for write give those two plus WRITE |
| `Options.LinkOptionSupport` | src/main/java/com/github/fge/filesystem/options/FileSystemOptionsFactory.java:233-238 | with the defaults, NOFOLLOW_LINKS is refused as a link option; once added, it is accepted for link and copy but refused for read and for write, because it is now in both open sets |

## Left out

- The `PathNames` class is not part of this model. Its `parent()` is taken to drop the last name, and to be absent when there are no names.
- The repository's concrete Unix factory is not part of this model. `UnixPaths` is a separate reference syntax, used only for scenarios and the round trip.
- Hooks are total, pure functions. A hook that throws, or a `rootAndNames` result that is not two strings, is not modelled.
- Exception messages are not modelled. `InvalidPath` keeps the input and the bad name. `IllegalOptionSet` keeps the caller's option list. `UnsupportedOption` keeps the option.
- Null arguments, and the `Objects.requireNonNull` checks on them, are excluded by typing.
- `Collections.unmodifiableSet` wrapping and the HashSet/EnumSet distinction are not modelled. Results are plain Dafny sets.
- Only the standard java.nio.file options are modelled. User-defined `OpenOption` or `CopyOption` implementations are not.
- Options.FileSystemOptionsFactory.CompileReadOptions: the contract says only that the reported unsupported option is some given option outside the read set. It does not say which one, because the source takes it from HashSet iteration order, which is unspecified.
- The compile methods are proved not to modify the factory by their empty modifies frame. This is not restated as an ensures clause.
