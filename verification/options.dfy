/**
 * The options a filesystem accepts when opening, copying and linking, and
 * the validation of a caller's option list against them.
 */
module Options {
  import opened Wrappers
  import opened Sequences

  /** The standard java.nio.file options. */
  datatype Opt =
    // StandardOpenOption
    | Append | Create | CreateNew | DeleteOnClose | Dsync | Read | Sparse | Sync
    | TruncateExisting | Write
    // StandardCopyOption
    | AtomicMove | CopyAttributes | ReplaceExisting
    // LinkOption
    | NoFollowLinks

  /** StandardOpenOption values and LinkOption (which is also an OpenOption). */
  predicate IsOpenOption(o: Opt)
  {
    !(o.AtomicMove? || o.CopyAttributes? || o.ReplaceExisting?)
  }

  /** StandardCopyOption values and LinkOption (which is also a CopyOption). */
  predicate IsCopyOption(o: Opt)
  {
    o.AtomicMove? || o.CopyAttributes? || o.ReplaceExisting? || o.NoFollowLinks?
  }

  type OpenOption = o: Opt | IsOpenOption(o) witness Read
  type CopyOption = o: Opt | IsCopyOption(o) witness ReplaceExisting
  type LinkOption = o: Opt | o.NoFollowLinks? witness NoFollowLinks

  datatype OptionError =
    | UnsupportedOption(option: Opt)         // UnsupportedOptionException
    | IllegalOptionSet(options: seq<Opt>)    // IllegalOptionSetException, with the caller's options

  /** `o` is the first option of `opts`, in order, outside `supported`. */
  predicate IsFirstUnsupported<T(==)>(opts: seq<T>, supported: set<T>, o: T)
  {
    exists k :: 0 <= k < |opts| && opts[k] == o && o !in supported
      && forall j :: 0 <= j < k ==> opts[j] in supported
  }

  /**
   * The loop shared by compileWriteOptions, compileCopyOptions and
   * compileLinkOptions: collect the options into a set, stopping at the
   * first one that is not supported.
   */
  method CollectSupported<T(==)>(opts: seq<T>, supported: set<T>) returns (r: Result<set<T>, T>)
    ensures r.Success? <==> forall i :: 0 <= i < |opts| ==> opts[i] in supported
    ensures r.Success? ==> r.value == Elements(opts)
    ensures r.Failure? ==> IsFirstUnsupported(opts, supported, r.error)
  {
    var collected := {};
    for i := 0 to |opts|
      invariant collected == Elements(opts[..i])
      invariant forall j :: 0 <= j < i ==> opts[j] in supported
    {
      if opts[i] !in supported {
        return Failure(opts[i]);
      }
      assert opts[..i + 1] == opts[..i] + [opts[i]];
      collected := collected + {opts[i]};
    }
    assert opts[..|opts|] == opts;
    return Success(collected);
  }

  /** The repository of options a filesystem supports. */
  class FileSystemOptionsFactory {
    var readOpenOptions: set<OpenOption>
    var writeOpenOptions: set<OpenOption>
    var copyOptions: set<CopyOption>
    var linkOptions: set<LinkOption>

    /** Every link option is also supported for read, for write and for copy, as addLinkOption arranges. */
    predicate LinkOptionsAreOpenAndCopy()
      reads this
    {
      forall o :: o in linkOptions ==> o in readOpenOptions && o in writeOpenOptions && o in copyOptions
    }

    /** By default: REPLACE_EXISTING for copy; READ and SPARSE for read; CREATE, CREATE_NEW, SPARSE, TRUNCATE_EXISTING, WRITE for write; no link option. */
    constructor ()
      ensures copyOptions == {ReplaceExisting}
      ensures writeOpenOptions == {Create, CreateNew, Sparse, TruncateExisting, Write}
      ensures readOpenOptions == {Read, Sparse}
      ensures linkOptions == {}
      ensures LinkOptionsAreOpenAndCopy()
    {
      readOpenOptions := {};
      writeOpenOptions := {};
      copyOptions := {};
      linkOptions := {};
      new;
      AddCopyOption(ReplaceExisting);
      AddWriteOpenOption(Create);
      AddWriteOpenOption(CreateNew);
      AddReadOpenOption(Read);
      AddOpenOption(Sparse);
      AddWriteOpenOption(TruncateExisting);
      AddWriteOpenOption(Write);
    }

    /**
     * Options for opening for read. Any option supported for write makes the
     * set illegal, and that is checked first; then any option not supported
     * for read is refused; on success READ is added. Nothing is modified.
     */
    method CompileReadOptions(opts: seq<OpenOption>) returns (r: Result<set<OpenOption>, OptionError>)
      ensures (r.Failure? && r.error.IllegalOptionSet?) <==> exists o :: o in opts && o in writeOpenOptions
      ensures r.Failure? && r.error.IllegalOptionSet? ==> r.error.options == opts
      ensures r.Failure? && r.error.UnsupportedOption? ==>
        r.error.option in opts && r.error.option !in readOpenOptions && r.error.option !in writeOpenOptions
      ensures r.Success? <==> forall o :: o in opts ==> o in readOpenOptions && o !in writeOpenOptions
      ensures r.Success? ==> r.value == Elements(opts) + {Read}
    {
      var given: set<OpenOption> := {};
      for i := 0 to |opts|
        invariant given == Elements(opts[..i])
      {
        assert opts[..i + 1] == opts[..i] + [opts[i]];
        given := given + {opts[i]};
      }
      assert opts[..|opts|] == opts;
      assert forall o :: o in given <==> o in opts;
      if given * writeOpenOptions != {} {
        return Failure(IllegalOptionSet(opts));
      }
      assert forall o :: o in given ==> o !in given * writeOpenOptions;
      assert forall o :: o in given ==> o !in writeOpenOptions;
      var pending := given;
      while pending != {}
        invariant pending <= given
        invariant forall o :: o in given - pending ==> o in readOpenOptions
        decreases pending
      {
        var opt :| opt in pending;
        if opt !in readOpenOptions {
          return Failure(UnsupportedOption(opt));
        }
        pending := pending - {opt};
      }
      assert forall o :: o in opts ==> o in readOpenOptions && o !in writeOpenOptions;
      return Success(given + {Read});
    }

    /**
     * Options for opening for write. Options are checked in order and the
     * first one not supported for write is refused; then any option also
     * supported for read makes the set illegal; on success WRITE is added.
     * Nothing is modified.
     */
    method CompileWriteOptions(opts: seq<OpenOption>) returns (r: Result<set<OpenOption>, OptionError>)
      ensures (r.Failure? && r.error.UnsupportedOption?) <==> exists o :: o in opts && o !in writeOpenOptions
      ensures r.Failure? && r.error.UnsupportedOption? ==> IsFirstUnsupported(opts, writeOpenOptions, r.error.option)
      ensures (r.Failure? && r.error.IllegalOptionSet?) <==>
        (forall o :: o in opts ==> o in writeOpenOptions) && exists o :: o in opts && o in readOpenOptions
      ensures r.Failure? && r.error.IllegalOptionSet? ==> r.error.options == opts
      ensures r.Success? <==> forall o :: o in opts ==> o in writeOpenOptions && o !in readOpenOptions
      ensures r.Success? ==> r.value == Elements(opts) + {Write}
    {
      var collected := CollectSupported<OpenOption>(opts, writeOpenOptions);
      if collected.Failure? {
        return Failure(UnsupportedOption(collected.error));
      }
      var given := collected.value;
      assert forall o :: o in given <==> o in opts;
      assert forall o :: o in opts ==> o in writeOpenOptions;
      if given * readOpenOptions != {} {
        return Failure(IllegalOptionSet(opts));
      }
      assert forall o :: o in given ==> o !in given * readOpenOptions;
      assert forall o :: o in given ==> o !in readOpenOptions;
      return Success(given + {Write});
    }

    /** Copy options: succeeds with exactly the given options when all are supported. Nothing is modified. */
    method CompileCopyOptions(opts: seq<CopyOption>) returns (r: Result<set<CopyOption>, OptionError>)
      ensures r.Success? <==> forall o :: o in opts ==> o in copyOptions
      ensures r.Success? ==> r.value == Elements(opts)
      ensures r.Failure? ==> r.error.UnsupportedOption? && IsFirstUnsupported(opts, copyOptions, r.error.option)
    {
      var collected := CollectSupported<CopyOption>(opts, copyOptions);
      if collected.Failure? {
        return Failure(UnsupportedOption(collected.error));
      }
      return Success(collected.value);
    }

    /** Link options: succeeds with exactly the given options when all are supported. Nothing is modified. */
    method CompileLinkOptions(opts: seq<LinkOption>) returns (r: Result<set<LinkOption>, OptionError>)
      ensures r.Success? <==> forall o :: o in opts ==> o in linkOptions
      ensures r.Success? ==> r.value == Elements(opts)
      ensures r.Failure? ==> r.error.UnsupportedOption? && IsFirstUnsupported(opts, linkOptions, r.error.option)
    {
      var collected := CollectSupported<LinkOption>(opts, linkOptions);
      if collected.Failure? {
        return Failure(UnsupportedOption(collected.error));
      }
      return Success(collected.value);
    }

    method AddReadOpenOption(option: OpenOption)
      modifies this
      ensures readOpenOptions == old(readOpenOptions) + {option}
      ensures writeOpenOptions == old(writeOpenOptions)
      ensures copyOptions == old(copyOptions) && linkOptions == old(linkOptions)
      ensures old(LinkOptionsAreOpenAndCopy()) ==> LinkOptionsAreOpenAndCopy()
    {
      readOpenOptions := readOpenOptions + {option};
    }

    method AddWriteOpenOption(option: OpenOption)
      modifies this
      ensures writeOpenOptions == old(writeOpenOptions) + {option}
      ensures readOpenOptions == old(readOpenOptions)
      ensures copyOptions == old(copyOptions) && linkOptions == old(linkOptions)
      ensures old(LinkOptionsAreOpenAndCopy()) ==> LinkOptionsAreOpenAndCopy()
    {
      writeOpenOptions := writeOpenOptions + {option};
    }

    /** Supported for both read and write. */
    method AddOpenOption(option: OpenOption)
      modifies this
      ensures readOpenOptions == old(readOpenOptions) + {option}
      ensures writeOpenOptions == old(writeOpenOptions) + {option}
      ensures copyOptions == old(copyOptions) && linkOptions == old(linkOptions)
      ensures old(LinkOptionsAreOpenAndCopy()) ==> LinkOptionsAreOpenAndCopy()
    {
      AddReadOpenOption(option);
      AddWriteOpenOption(option);
    }

    method AddCopyOption(option: CopyOption)
      modifies this
      ensures copyOptions == old(copyOptions) + {option}
      ensures readOpenOptions == old(readOpenOptions) && writeOpenOptions == old(writeOpenOptions)
      ensures linkOptions == old(linkOptions)
      ensures old(LinkOptionsAreOpenAndCopy()) ==> LinkOptionsAreOpenAndCopy()
    {
      copyOptions := copyOptions + {option};
    }

    /** A link option is also an open option (read and write) and a copy option. */
    method AddLinkOption(option: LinkOption)
      modifies this
      ensures linkOptions == old(linkOptions) + {option}
      ensures readOpenOptions == old(readOpenOptions) + {option}
      ensures writeOpenOptions == old(writeOpenOptions) + {option}
      ensures copyOptions == old(copyOptions) + {option}
      ensures old(LinkOptionsAreOpenAndCopy()) ==> LinkOptionsAreOpenAndCopy()
    {
      linkOptions := linkOptions + {option};
      AddOpenOption(option);
      copyOptions := copyOptions + {option};
    }

    /**
     * Whatever options were added, a link option is accepted for copy and,
     * since it is supported for both read and write, refused by both open
     * modes as an illegal set. Nothing is modified.
     */
    method LinkOptionIsRefusedForOpen(o: LinkOption)
      returns (read: Result<set<OpenOption>, OptionError>, write: Result<set<OpenOption>, OptionError>,
               copy: Result<set<CopyOption>, OptionError>)
      requires LinkOptionsAreOpenAndCopy() && o in linkOptions
      ensures read == Failure(IllegalOptionSet([o]))
      ensures write == Failure(IllegalOptionSet([o]))
      ensures copy == Success({o})
    {
      assert Elements<CopyOption>([o]) == {o};
      read := CompileReadOptions([o]);
      write := CompileWriteOptions([o]);
      copy := CompileCopyOptions([o]);
    }
  }

  /**
   * With the default options SPARSE, supported for both read and write, is
   * refused by both compile methods, and WRITE is refused for read.
   */
  method DefaultsRejectOpenOptionsOfTheOtherMode()
    returns (sparseRead: Result<set<OpenOption>, OptionError>, sparseWrite: Result<set<OpenOption>, OptionError>,
             writeRead: Result<set<OpenOption>, OptionError>, readWrite: Result<set<OpenOption>, OptionError>)
    ensures sparseRead == Failure(IllegalOptionSet([Sparse]))
    ensures sparseWrite == Failure(IllegalOptionSet([Sparse]))
    ensures writeRead == Failure(IllegalOptionSet([Write]))
    ensures readWrite == Failure(UnsupportedOption(Read))
  {
    var factory := new FileSystemOptionsFactory();
    sparseRead := factory.CompileReadOptions([Sparse]);
    sparseWrite := factory.CompileWriteOptions([Sparse]);
    writeRead := factory.CompileReadOptions([Write]);
    readWrite := factory.CompileWriteOptions([Read]);
  }

  /** With the default options an empty list gives READ alone for read and WRITE alone for write. */
  method DefaultsAddTheModeOption()
    returns (read: Result<set<OpenOption>, OptionError>, write: Result<set<OpenOption>, OptionError>,
             create: Result<set<OpenOption>, OptionError>)
    ensures read == Success({Read})
    ensures write == Success({Write})
    ensures create == Success({Create, TruncateExisting, Write})
  {
    var factory := new FileSystemOptionsFactory();
    assert Elements<OpenOption>([]) == {};
    assert Elements<OpenOption>([Create, TruncateExisting]) == {Create, TruncateExisting};
    read := factory.CompileReadOptions([]);
    assert read.value == {} + {Read} == {Read};
    write := factory.CompileWriteOptions([]);
    assert write.value == {} + {Write} == {Write};
    create := factory.CompileWriteOptions([Create, TruncateExisting]);
    assert create.value == {Create, TruncateExisting} + {Write} == {Create, TruncateExisting, Write};
  }

  /**
   * The default link set is empty, so NOFOLLOW_LINKS is refused; once added
   * with addLinkOption it is accepted for link and copy, but refused for read
   * and write, since it is now in both open sets.
   */
  method LinkOptionSupport()
    returns (before: Result<set<LinkOption>, OptionError>, link: Result<set<LinkOption>, OptionError>,
             copy: Result<set<CopyOption>, OptionError>, read: Result<set<OpenOption>, OptionError>,
             write: Result<set<OpenOption>, OptionError>)
    ensures before == Failure(UnsupportedOption(NoFollowLinks))
    ensures link == Success({NoFollowLinks})
    ensures copy == Success({NoFollowLinks, ReplaceExisting})
    ensures read == Failure(IllegalOptionSet([NoFollowLinks]))
    ensures write == Failure(IllegalOptionSet([NoFollowLinks]))
  {
    var factory := new FileSystemOptionsFactory();
    before := factory.CompileLinkOptions([NoFollowLinks]);
    factory.AddLinkOption(NoFollowLinks);
    assert Elements<LinkOption>([NoFollowLinks]) == {NoFollowLinks};
    assert Elements<CopyOption>([NoFollowLinks, ReplaceExisting]) == {NoFollowLinks, ReplaceExisting};
    link := factory.CompileLinkOptions([NoFollowLinks]);
    copy := factory.CompileCopyOptions([NoFollowLinks, ReplaceExisting]);
    read := factory.CompileReadOptions([NoFollowLinks]);
    write := factory.CompileWriteOptions([NoFollowLinks]);
  }
}
