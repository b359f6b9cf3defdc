/**
 * The syntax-independent path engine: parsing a string into PathNames,
 * lexical normalisation, resolution against another path and printing back
 * to a string. Everything syntax-specific is delegated to six hooks.
 */
module PathFactory {
  import opened Wrappers
  import opened Sequences
  import opened Paths

  /**
   * One path syntax: the two separators used when printing, and the six
   * hooks that decide how a string is split and what its names mean.
   * Every hook is a total, side-effect-free function.
   */
  datatype PathNamesFactory = PathNamesFactory(
    rootSeparator: string,                       // between the root and the first name
    separator: string,                           // between two names
    rootAndNames: string -> (Option<string>, string),  // root (if any) and the names-only rest
    splitNames: string -> seq<string>,           // names-only rest into name elements, in order
    isValidName: string -> bool,
    isSelf: string -> bool,                      // "the current directory"
    isParent: string -> bool,                    // "the parent directory"
    isAbsolute: PathNames -> bool)

  datatype PathError =
    | InvalidPath(input: string, name: string)   // InvalidPathException: the input and its bad name
    | UnsupportedRootedRelativePath              // UnsupportedOperationException from resolve

  // ---------------------------------------------------------------- parsing

  /** The index of the first name, in scan order, that the factory rejects. */
  function FirstInvalid(f: PathNamesFactory, names: seq<string>): (r: Option<nat>)
    ensures r.Some? ==> r.value < |names| && !f.isValidName(names[r.value])
    ensures r.Some? ==> forall j :: 0 <= j < r.value ==> f.isValidName(names[j])
    ensures r.None? <==> forall j :: 0 <= j < |names| ==> f.isValidName(names[j])
  {
    if names == [] then None
    else if !f.isValidName(names[0]) then Some(0)
    else match FirstInvalid(f, names[1..])
      case None => None
      case Some(k) => Some(k + 1)
  }

  /** The value `toPathNames` returns or the exception it throws. */
  function Parse(f: PathNamesFactory, path: string): Result<PathNames, PathError>
  {
    var (root, namesOnly) := f.rootAndNames(path);
    var names := f.splitNames(namesOnly);
    match FirstInvalid(f, names)
    case Some(i) => Failure(InvalidPath(path, names[i]))
    case None => Success(PathNames(root, names))
  }

  /**
   * Parsing fails exactly when some split name is invalid, and then reports
   * the first such name; otherwise it keeps the root and the split names
   * unchanged (no normalisation).
   */
  lemma ParseOutcome(f: PathNamesFactory, path: string)
    ensures var names := f.splitNames(f.rootAndNames(path).1);
      && (Parse(f, path).Failure? <==> exists i :: 0 <= i < |names| && !f.isValidName(names[i]))
      && (Parse(f, path).Success? ==> Parse(f, path).value == PathNames(f.rootAndNames(path).0, names))
      && (Parse(f, path).Failure? ==>
            (exists i :: 0 <= i < |names| && Parse(f, path).error == InvalidPath(path, names[i])
              && !f.isValidName(names[i]) && forall j :: 0 <= j < i ==> f.isValidName(names[j])))
  {
  }

  /** `toPathNames`: split with the hooks, then check every name in order. */
  method ToPathNames(f: PathNamesFactory, path: string) returns (r: Result<PathNames, PathError>)
    ensures r == Parse(f, path)
  {
    var (root, namesOnly) := f.rootAndNames(path);
    var names := f.splitNames(namesOnly);
    for i := 0 to |names|
      invariant forall j :: 0 <= j < i ==> f.isValidName(names[j])
    {
      if !f.isValidName(names[i]) {
        return Failure(InvalidPath(path, names[i]));
      }
    }
    return Success(PathNames(root, names));
  }

  // ---------------------------------------------------------- normalisation

  /** A name that is neither a self name nor a parent name. */
  predicate IsRegular(f: PathNamesFactory, name: string)
  {
    !f.isSelf(name) && !f.isParent(name)
  }

  /** A parent name that is not also a self name (self is tested first). */
  predicate IsParentName(f: PathNamesFactory, name: string)
  {
    !f.isSelf(name) && f.isParent(name)
  }

  /** The state of normalisation after some prefix of the names. */
  datatype Scan = Scan(out: seq<string>, seenRegularName: bool)

  /** One iteration of the normalisation loop. */
  function NormalizeStep(f: PathNamesFactory, s: Scan, name: string): Scan
  {
    if f.isSelf(name) then s
    else if !f.isParent(name) then Scan(s.out + [name], true)
    else if s.seenRegularName && |s.out| > 0 then Scan(s.out[..|s.out| - 1], true)
    else Scan(s.out + [name], s.seenRegularName)
  }

  /** The state after the loop has consumed all of `names`, left to right. */
  function NormalizeScan(f: PathNamesFactory, names: seq<string>): (r: Scan)
    ensures |r.out| <= |names|
  {
    if names == [] then Scan([], false)
    else NormalizeStep(f, NormalizeScan(f, names[..|names| - 1]), names[|names| - 1])
  }

  /** The names `normalize` produces. */
  function Normalized(f: PathNamesFactory, names: seq<string>): seq<string>
  {
    NormalizeScan(f, names).out
  }

  /**
   * `normalize`: one pass over the names with a scratch array, a write index
   * and a flag that is set by the first regular name and never reset.
   */
  method Normalize(f: PathNamesFactory, p: PathNames) returns (r: PathNames)
    ensures r.root == p.root
    ensures r.names == Normalized(f, p.names)
  {
    var names := p.names;
    var length := |names|;
    var newNames := new string[length];
    var dstIndex := 0;
    var seenRegularName := false;
    for i := 0 to length
      invariant dstIndex <= i
      invariant NormalizeScan(f, names[..i]) == Scan(newNames[..dstIndex], seenRegularName)
    {
      var name := names[i];
      assert names[..i + 1][..i] == names[..i];
      if f.isSelf(name) {
        continue;
      }
      if !f.isParent(name) {
        newNames[dstIndex] := name;
        dstIndex := dstIndex + 1;
        seenRegularName := true;
        continue;
      }
      if seenRegularName && dstIndex > 0 {
        dstIndex := dstIndex - 1;
      } else {
        newNames[dstIndex] := name;
        dstIndex := dstIndex + 1;
      }
    }
    assert names[..length] == names;
    r := PathNames(p.root, if dstIndex == 0 then [] else newNames[..dstIndex]);
  }

  /** No self names, and every name after a regular name is regular: parents first, then regulars. */
  predicate Compacted(f: PathNamesFactory, s: seq<string>)
  {
    && (forall i :: 0 <= i < |s| ==> !f.isSelf(s[i]))
    && (forall i, j :: 0 <= i < j < |s| && IsRegular(f, s[i]) ==> IsRegular(f, s[j]))
  }

  predicate HasRegular(f: PathNamesFactory, s: seq<string>)
  {
    exists i :: 0 <= i < |s| && IsRegular(f, s[i])
  }

  /**
   * The shape of the normalisation state: the output is compacted; the flag
   * is set exactly when a regular name has occurred in the input, however
   * many of them were cancelled since; and while it is unset the output holds
   * only parent names.
   */
  lemma {:induction false} NormalizeScanShape(f: PathNamesFactory, names: seq<string>)
    ensures Compacted(f, NormalizeScan(f, names).out)
    ensures NormalizeScan(f, names).seenRegularName <==> HasRegular(f, names)
    ensures !NormalizeScan(f, names).seenRegularName ==>
      forall i :: 0 <= i < |NormalizeScan(f, names).out| ==> IsParentName(f, NormalizeScan(f, names).out[i])
  {
    if names != [] {
      var prefix := names[..|names| - 1];
      var name := names[|names| - 1];
      NormalizeScanShape(f, prefix);
      var s := NormalizeScan(f, prefix);
      assert names == prefix + [name];
      assert HasRegular(f, names) <==> HasRegular(f, prefix) || IsRegular(f, name) by {
        if HasRegular(f, names) {
          var i :| 0 <= i < |names| && IsRegular(f, names[i]);
          if i < |prefix| { assert prefix[i] == names[i]; }
        }
        if HasRegular(f, prefix) {
          var i :| 0 <= i < |prefix| && IsRegular(f, prefix[i]);
          assert names[i] == prefix[i];
        }
      }
      if f.isSelf(name) {
      } else if !f.isParent(name) {
        var o := s.out + [name];
        assert forall i :: 0 <= i < |s.out| ==> o[i] == s.out[i];
      } else if s.seenRegularName && |s.out| > 0 {
        var o := s.out[..|s.out| - 1];
        assert forall i :: 0 <= i < |o| ==> o[i] == s.out[i];
      } else {
        var o := s.out + [name];
        assert forall i :: 0 <= i < |s.out| ==> o[i] == s.out[i];
        assert forall i :: 0 <= i < |o| ==> IsParentName(f, o[i]);
      }
    }
  }

  /**
   * Normalisation only deletes names: the result is a subsequence of the
   * input, so its surviving names keep their input order.
   */
  lemma {:induction false} NormalizedIsSubsequence(f: PathNamesFactory, names: seq<string>)
    ensures IsSubsequence(Normalized(f, names), names)
  {
    if names != [] {
      var prefix := names[..|names| - 1];
      var name := names[|names| - 1];
      var s := NormalizeScan(f, prefix);
      NormalizedIsSubsequence(f, prefix);
      assert names == prefix + [name];
      if f.isSelf(name) {
        SubsequenceExtend(s.out, prefix, name);
      } else if !f.isParent(name) {
        SubsequenceExtend(s.out, prefix, name);
      } else if s.seenRegularName && |s.out| > 0 {
        SubsequenceDropLast(s.out, prefix);
        SubsequenceExtend(s.out[..|s.out| - 1], prefix, name);
      } else {
        SubsequenceExtend(s.out, prefix, name);
      }
    }
  }

  /** Normalisation leaves a compacted sequence as it is. */
  lemma {:induction false} NormalizeFixesCompacted(f: PathNamesFactory, names: seq<string>)
    requires Compacted(f, names)
    ensures NormalizeScan(f, names) == Scan(names, HasRegular(f, names))
  {
    if names != [] {
      var prefix := names[..|names| - 1];
      var name := names[|names| - 1];
      assert names == prefix + [name];
      assert Compacted(f, prefix) by {
        assert forall i :: 0 <= i < |prefix| ==> prefix[i] == names[i];
      }
      NormalizeFixesCompacted(f, prefix);
      assert HasRegular(f, names) <==> HasRegular(f, prefix) || IsRegular(f, name) by {
        if HasRegular(f, names) {
          var i :| 0 <= i < |names| && IsRegular(f, names[i]);
          if i < |prefix| { assert prefix[i] == names[i]; }
        }
        if HasRegular(f, prefix) {
          var i :| 0 <= i < |prefix| && IsRegular(f, prefix[i]);
          assert names[i] == prefix[i];
        }
      }
      if f.isParent(name) {
        forall i | 0 <= i < |prefix|
          ensures !IsRegular(f, prefix[i])
        {
          assert prefix[i] == names[i];
        }
      }
    }
  }

  /** Normalising twice gives the same names as normalising once. */
  lemma NormalizeIdempotent(f: PathNamesFactory, names: seq<string>)
    ensures Normalized(f, Normalized(f, names)) == Normalized(f, names)
  {
    NormalizeScanShape(f, names);
    NormalizeFixesCompacted(f, Normalized(f, names));
  }

  /** Names that are all regular come back unchanged. */
  lemma NormalizeKeepsRegularNames(f: PathNamesFactory, names: seq<string>)
    requires forall i :: 0 <= i < |names| ==> IsRegular(f, names[i])
    ensures Normalized(f, names) == names
  {
    NormalizeFixesCompacted(f, names);
  }

  // -------------------------------------------------------------- resolution

  /** `resolve`: an absolute second path wins; a rooted relative one is refused; else append. */
  function Resolve(f: PathNamesFactory, first: PathNames, second: PathNames): (r: Result<PathNames, PathError>)
    ensures f.isAbsolute(second) ==> r == Success(second)
    ensures !f.isAbsolute(second) && second.root.Some? ==> r == Failure(UnsupportedRootedRelativePath)
    ensures !f.isAbsolute(second) && second.root.None? ==>
      r == Success(PathNames(first.root, first.names + second.names))
  {
    if f.isAbsolute(second) then Success(second)
    else if second.root.Some? then Failure(UnsupportedRootedRelativePath)
    else if second.names == [] then
      assert first.names + second.names == first.names;
      Success(first)
    else Success(PathNames(first.root, first.names + second.names))
  }

  /** `resolveSibling`: resolve against the parent, or return the second path when there is none. */
  function ResolveSibling(f: PathNamesFactory, first: PathNames, second: PathNames): (r: Result<PathNames, PathError>)
    ensures first.names == [] ==> r == Success(second)
    ensures first.names != [] ==>
      r == Resolve(f, PathNames(first.root, first.names[..|first.names| - 1]), second)
  {
    match Parent(first)
    case None => Success(second)
    case Some(parent) => Resolve(f, parent, second)
  }

  /**
   * Resolving the last name of a path against its sibling position gives the
   * path back, provided that name on its own is not absolute.
   */
  lemma ResolveSiblingOfFileName(f: PathNamesFactory, p: PathNames)
    requires p.names != []
    requires !f.isAbsolute(PathNames(None, [p.names[|p.names| - 1]]))
    ensures ResolveSibling(f, p, PathNames(None, [p.names[|p.names| - 1]])) == Success(p)
  {
    assert p.names[..|p.names| - 1] + [p.names[|p.names| - 1]] == p.names;
  }

  // ---------------------------------------------------------------- printing

  /** The string `toString` builds. */
  function CanonicalString(f: PathNamesFactory, p: PathNames): string
  {
    var rootText := if p.root.Some? then p.root.value else "";
    if p.names == [] then rootText
    else rootText + (if p.root.Some? then f.rootSeparator else "") + Join(f.separator, p.names)
  }

  /** `toString`: root, then the root separator and the names joined by the separator. */
  method ToString(f: PathNamesFactory, p: PathNames) returns (s: string)
    ensures s == CanonicalString(f, p)
  {
    var sb := "";
    var hasRoot := p.root.Some?;
    if hasRoot {
      sb := sb + p.root.value;
    }
    var names := p.names;
    var len := |names|;
    if len == 0 {
      return sb;
    }
    if hasRoot {
      sb := sb + f.rootSeparator;
    }
    ghost var lead := sb;
    sb := sb + names[0];
    assert names[..1] == [names[0]];
    for i := 1 to len
      invariant sb == lead + Join(f.separator, names[..i])
    {
      JoinSnoc(f.separator, names[..i], names[i]);
      assert names[..i + 1] == names[..i] + [names[i]];
      sb := sb + f.separator + names[i];
    }
    assert names[..len] == names;
    return sb;
  }

  /**
   * Printing a resolved relative path is printing the base, the separator and
   * the relative path.
   */
  lemma ResolvePrintsJoined(f: PathNamesFactory, first: PathNames, second: PathNames)
    requires !f.isAbsolute(second) && second.root.None?
    requires first.names != [] && second.names != []
    ensures Resolve(f, first, second).Success?
    ensures CanonicalString(f, Resolve(f, first, second).value)
      == CanonicalString(f, first) + f.separator + CanonicalString(f, second)
  {
    JoinAppend(f.separator, first.names, second.names);
  }
}
