/**
 * A Unix-style reference syntax for the path engine: root "/", names
 * separated by "/", self name ".", parent name "..". It exists to state
 * concrete scenarios and the parse/print round trip; it is not the
 * repository's own Unix factory.
 */
module UnixPaths {
  import opened Wrappers
  import opened Sequences
  import opened Paths
  import opened PathFactory

  /** A leading "/" is the root; the rest holds the names. */
  function UnixRootAndNames(path: string): (Option<string>, string)
  {
    if |path| > 0 && path[0] == '/' then (Some("/"), path[1..]) else (None, path)
  }

  /** The longest prefix of `s` free of '/'. */
  function FirstSegment(s: string): (r: string)
    ensures |r| <= |s| && r == s[..|r|]
    ensures '/' !in r
    ensures |r| < |s| ==> s[|r|] == '/'
  {
    if s == [] || s[0] == '/' then "" else [s[0]] + FirstSegment(s[1..])
  }

  /** Split on '/', dropping empty segments. */
  function UnixSplitNames(s: string): (r: seq<string>)
    ensures forall i :: 0 <= i < |r| ==> UnixIsValidName(r[i])
    decreases |s|
  {
    if s == [] then []
    else if s[0] == '/' then UnixSplitNames(s[1..])
    else
      var segment := FirstSegment(s);
      assert segment != [] by { assert s[0] != '/'; }
      [segment] + UnixSplitNames(s[|segment|..])
  }

  predicate UnixIsValidName(name: string)
  {
    name != "" && '/' !in name
  }

  predicate UnixIsSelf(name: string)
  {
    name == "."
  }

  predicate UnixIsParent(name: string)
  {
    name == ".."
  }

  predicate UnixIsAbsolute(p: PathNames)
  {
    p.root.Some?
  }

  function Unix(): PathNamesFactory
  {
    PathNamesFactory("", "/", UnixRootAndNames, UnixSplitNames,
      UnixIsValidName, UnixIsSelf, UnixIsParent, UnixIsAbsolute)
  }

  lemma {:induction false} FirstSegmentOfName(name: string, rest: string)
    requires '/' !in name
    requires rest == [] || rest[0] == '/'
    ensures FirstSegment(name + rest) == name
  {
    if name == [] {
      assert name + rest == rest;
    } else {
      assert (name + rest)[1..] == name[1..] + rest;
      FirstSegmentOfName(name[1..], rest);
      assert name == [name[0]] + name[1..];
    }
  }

  /** Splitting the joined valid names gives the names back. */
  lemma {:induction false} SplitJoin(names: seq<string>)
    requires forall i :: 0 <= i < |names| ==> UnixIsValidName(names[i])
    ensures UnixSplitNames(Join("/", names)) == names
  {
    if names == [] {
    } else if |names| == 1 {
      FirstSegmentOfName(names[0], "");
      assert names[0] + "" == names[0];
      assert names[0][|names[0]|..] == "";
    } else {
      var name := names[0];
      var tail := Join("/", names[1..]);
      var s := name + "/" + tail;
      assert Join("/", names) == s;
      FirstSegmentOfName(name, "/" + tail);
      assert name + ("/" + tail) == s;
      assert s[|name|..] == "/" + tail;
      assert ("/" + tail)[1..] == tail;
      SplitJoin(names[1..]);
      assert names == [name] + names[1..];
    }
  }

  /** The printed form of a path splits back into its root and its joined names. */
  lemma RootAndNamesOfPrinted(p: PathNames)
    requires p.root == None || p.root == Some("/")
    requires forall i :: 0 <= i < |p.names| ==> UnixIsValidName(p.names[i])
    ensures UnixRootAndNames(CanonicalString(Unix(), p)) == (p.root, Join("/", p.names))
  {
    var s := CanonicalString(Unix(), p);
    var joined := Join("/", p.names);
    if p.root == None {
      assert s == joined;
      if p.names != [] {
        assert joined[0] == p.names[0][0] by {
          if |p.names| > 1 { assert joined == p.names[0] + "/" + Join("/", p.names[1..]); }
        }
        assert p.names[0][0] in p.names[0];
      }
    } else {
      assert s == "/" + joined;
    }
  }

  /**
   * Printing and then parsing a path with valid names and root "/" or none
   * gives the same path back.
   */
  lemma PrintParseRoundTrip(p: PathNames)
    requires p.root == None || p.root == Some("/")
    requires forall i :: 0 <= i < |p.names| ==> UnixIsValidName(p.names[i])
    ensures Parse(Unix(), CanonicalString(Unix(), p)) == Success(p)
  {
    var f := Unix();
    var joined := Join("/", p.names);
    RootAndNamesOfPrinted(p);
    SplitJoin(p.names);
    assert f.rootAndNames(CanonicalString(f, p)) == (p.root, joined);
    assert f.splitNames(joined) == p.names;
    assert FirstInvalid(f, p.names) == None by {
      assert forall i :: 0 <= i < |p.names| ==> f.isValidName(p.names[i]);
    }
  }

  /** "/a/b/c" parses to root "/" and names a, b, c. */
  lemma ParseAbsoluteExample()
    ensures Parse(Unix(), "/a/b/c") == Success(PathNames(Some("/"), ["a", "b", "c"]))
  {
    var p := PathNames(Some("/"), ["a", "b", "c"]);
    assert Join("/", p.names) == "a/b/c" by {
      assert p.names[1..] == ["b", "c"];
      assert ["b", "c"][1..] == ["c"];
    }
    PrintParseRoundTrip(p);
  }

  /** A parent name cancels the regular name before it. */
  lemma NormalizeCancelExample()
    ensures Normalized(Unix(), ["a", "..", "b"]) == ["b"]
  {
    assert ["a", "..", "b"][..2] == ["a", ".."];
    assert ["a", ".."][..1] == ["a"];
    assert ["a"][..0] == [];
  }

  /** A leading parent name has nothing to cancel and is kept. */
  lemma NormalizeLeadingParentExample()
    ensures Normalized(Unix(), ["..", "a"]) == ["..", "a"]
  {
    assert ["..", "a"][..1] == [".."];
    assert [".."][..0] == [];
  }

  /** The second parent name finds the output empty and is kept. */
  lemma NormalizeTrailingParentsExample()
    ensures Normalized(Unix(), ["a", "..", ".."]) == [".."]
  {
    assert ["a", "..", ".."][..2] == ["a", ".."];
    assert ["a", ".."][..1] == ["a"];
    assert ["a"][..0] == [];
  }

  /**
   * The flag is never reset: once a regular name has been seen, a parent
   * name cancels whatever is last in the output, even a parent name kept
   * earlier, so both of these come out empty.
   */
  lemma NormalizeNeverResetsFlag()
    ensures Normalized(Unix(), ["a", "..", "..", ".."]) == []
    ensures Normalized(Unix(), ["..", "a", "..", ".."]) == []
  {
    assert ["a", "..", "..", ".."][..3] == ["a", "..", ".."];
    NormalizeTrailingParentsExample();
    assert ["..", "a", "..", ".."][..3] == ["..", "a", ".."];
    assert ["..", "a", ".."][..2] == ["..", "a"];
    NormalizeLeadingParentExample();
  }

  lemma ResolveExample()
    ensures Resolve(Unix(), PathNames(Some("/"), ["a", "b"]), PathNames(None, ["c"]))
      == Success(PathNames(Some("/"), ["a", "b", "c"]))
  {
    assert !Unix().isAbsolute(PathNames(None, ["c"]));
    assert ["a", "b"] + ["c"] == ["a", "b", "c"];
  }

  lemma ResolveSiblingExample()
    ensures ResolveSibling(Unix(), PathNames(Some("/"), ["a", "b"]), PathNames(None, ["c"]))
      == Success(PathNames(Some("/"), ["a", "c"]))
  {
    assert ["a", "b"][..1] == ["a"];
    assert !Unix().isAbsolute(PathNames(None, ["c"]));
    assert ["a"] + ["c"] == ["a", "c"];
  }

  lemma PrintRootOnlyExample()
    ensures CanonicalString(Unix(), PathNames(Some("/"), [])) == "/"
  {
  }
}
