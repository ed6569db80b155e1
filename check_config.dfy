/** The `check-config` command (src/commands/check_config.rs): every
    handler's command must name an executable file. Path lookup and file
    metadata are a `FileSystem` value. */
module CheckConfig {
  import opened Wrappers
  import opened Config

  // ---------------------------------------------------------------------
  // `split_whitespace().next()`

  /** The 25 code points with the Unicode White_Space property. */
  const WHITE_SPACE: set<char> := {
    '\U{9}', '\U{A}', '\U{B}', '\U{C}', '\U{D}', '\U{20}', '\U{85}', '\U{A0}', '\U{1680}',
    '\U{2000}', '\U{2001}', '\U{2002}', '\U{2003}', '\U{2004}', '\U{2005}', '\U{2006}',
    '\U{2007}', '\U{2008}', '\U{2009}', '\U{200A}',
    '\U{2028}', '\U{2029}', '\U{202F}', '\U{205F}', '\U{3000}'
  }

  /** `char::is_whitespace`: the Unicode White_Space property. */
  predicate IsWhitespace(c: char) {
    ('\t' <= c <= '\r') || c == ' ' || c == '\U{85}' || c == '\U{A0}' || c == '\U{1680}'
    || ('\U{2000}' <= c <= '\U{200A}') || c == '\U{2028}' || c == '\U{2029}'
    || c == '\U{202F}' || c == '\U{205F}' || c == '\U{3000}'
  }

  /** The separator test is exactly the White_Space set, code point for
      code point. */
  lemma WhitespaceIsUnicodeSet(c: char)
    ensures IsWhitespace(c) <==> c in WHITE_SPACE
  {
  }

  predicate AllWhitespace(s: string) {
    forall i :: 0 <= i < |s| ==> IsWhitespace(s[i])
  }

  predicate NoWhitespace(s: string) {
    forall i :: 0 <= i < |s| ==> !IsWhitespace(s[i])
  }

  /** `s` after its leading whitespace. */
  function TrimStart(s: string): (r: string)
    ensures |r| <= |s| && r == s[|s| - |r|..]
    ensures AllWhitespace(s[..|s| - |r|])
    ensures r == [] || !IsWhitespace(r[0])
  {
    if s != [] && IsWhitespace(s[0]) then TrimStart(s[1..]) else s
  }

  /** The longest prefix of `s` without whitespace. */
  function TakeToken(s: string): (r: string)
    ensures |r| <= |s| && r == s[..|r|]
    ensures NoWhitespace(r)
    ensures |r| == |s| || IsWhitespace(s[|r|])
  {
    if s != [] && !IsWhitespace(s[0]) then [s[0]] + TakeToken(s[1..]) else []
  }

  /** The first whitespace-separated token, or nothing for an empty or
      all-whitespace string. */
  function FirstToken(s: string): (r: Option<string>)
    ensures r.None? <==> AllWhitespace(s)
    ensures r.Some? ==> r.value != [] && NoWhitespace(r.value)
  {
    var rest := TrimStart(s);
    if rest == [] then None else Some(TakeToken(rest))
  }

  /** The token is a whole word of `s`: only whitespace before it, and the
      end of `s` or whitespace right after it. */
  lemma FirstTokenIsLeadingWord(s: string)
    requires FirstToken(s).Some?
    ensures var token := FirstToken(s).value;
      exists k :: (0 <= k <= |s| - |token| && AllWhitespace(s[..k]) &&
                   s[k..k + |token|] == token &&
                   (k + |token| == |s| || IsWhitespace(s[k + |token|])))
  {
    var rest := TrimStart(s);
    var token := TakeToken(rest);
    var k := |s| - |rest|;
    assert s[k..k + |token|] == token;
  }

  /** A command is checked by its first word: whatever follows the first
      whitespace after it (the arguments) is ignored. */
  lemma {:induction false} FirstTokenIgnoresArguments(lead: string, token: string, arguments: string)
    requires AllWhitespace(lead) && token != [] && NoWhitespace(token)
    requires arguments == [] || IsWhitespace(arguments[0])
    ensures FirstToken(lead + token + arguments) == Some(token)
  {
    TrimStartSkips(lead, token + arguments);
    assert lead + token + arguments == lead + (token + arguments);
    TakeTokenStops(token, arguments);
  }

  /** A tab separates words just as the ASCII space does. */
  lemma TabSeparates()
    ensures FirstToken("echo\t-n") == Some("echo")
  {
    var word, arguments := "echo", "\t-n";
    assert word + arguments == "echo\t-n";
    TakeTokenStops(word, arguments);
    TrimStartSkips("", word + arguments);
  }

  /** The no-break space separates words too. */
  lemma NoBreakSpaceSeparates()
    ensures FirstToken("echo\U{A0}-n") == Some("echo")
  {
    var word, arguments := "echo", "\U{A0}-n";
    assert word + arguments == "echo\U{A0}-n";
    TakeTokenStops(word, arguments);
    TrimStartSkips("", word + arguments);
  }

  /** A leading ideographic space is skipped like leading blanks. */
  lemma IdeographicSpaceIsSkipped()
    ensures FirstToken("\U{3000}echo") == Some("echo")
  {
    var lead, word := "\U{3000}", "echo";
    assert lead + word == "\U{3000}echo";
    TrimStartSkips(lead, word);
    TakeTokenStops(word, "");
    assert word + "" == word;
  }

  lemma {:induction false} TrimStartSkips(lead: string, s: string)
    requires AllWhitespace(lead) && s != [] && !IsWhitespace(s[0])
    ensures TrimStart(lead + s) == s
  {
    if lead != [] {
      assert (lead + s)[1..] == lead[1..] + s;
      TrimStartSkips(lead[1..], s);
    }
  }

  lemma {:induction false} TakeTokenStops(token: string, s: string)
    requires NoWhitespace(token)
    requires s == [] || IsWhitespace(s[0])
    ensures TakeToken(token + s) == token
  {
    if token != [] {
      assert (token + s)[1..] == token[1..] + s;
      TakeTokenStops(token[1..], s);
    } else {
      assert token + s == s;
    }
  }

  // ---------------------------------------------------------------------
  // The execute-bit test

  /** `0o111`: the owner, group and other execute bits. */
  const EXECUTE_BITS: bv32 := 0x49

  /** `!metadata.permissions().mode() & 0o111 == 0o111`, read as Rust reads
      it: `((!mode) & 0o111) == 0o111`. It holds exactly when no execute bit
      is set; one execute bit for anyone is enough to pass. */
  predicate NotExecutable(mode: bv32)
    ensures NotExecutable(mode) <==> mode & EXECUTE_BITS == 0
    ensures !NotExecutable(mode) <==> (mode & 0x40 != 0 || mode & 0x8 != 0 || mode & 0x1 != 0)
  {
    (!mode) & EXECUTE_BITS == EXECUTE_BITS
  }

  // ---------------------------------------------------------------------
  // The file system

  /** What `File::open(..)?.metadata()` gives for an existing path. */
  datatype FileStat = Unopenable | Metadata(mode: bv32)

  /** `which` maps a command name to its full path (a name it cannot
      resolve is absent); `files` holds the paths that exist. */
  datatype FileSystem = FileSystem(which: map<string, string>, files: map<string, FileStat>)

  datatype CheckError =
    | InvalidCommand(command: string)  // "{} is not a valid command"
    | NotResolved(name: string)        // "failed to get the full path of the command"
    | DoesNotExist(path: string)       // "the command {} does not exist"
    | CannotOpen(path: string)         // "failed to open the command file"
    | NotAnExecutable(path: string)    // "the command {} is not executable"

  /** The body of the handler loop, one handler. */
  function CheckHandler(h: Handler, fs: FileSystem): (r: Result<(), CheckError>)
    ensures AllWhitespace(h.command) ==> r == Failure(InvalidCommand(h.command))
  {
    match FirstToken(h.command)
    case None => Failure(InvalidCommand(h.command))
    case Some(name) =>
      if name !in fs.which then Failure(NotResolved(name))
      else
        var path := fs.which[name];
        if path !in fs.files then Failure(DoesNotExist(path))
        else match fs.files[path]
          case Unopenable => Failure(CannotOpen(path))
          case Metadata(mode) =>
            if NotExecutable(mode) then Failure(NotAnExecutable(path)) else Success(())
  }

  /** A handler passes iff its first word resolves to a path that exists,
      can be opened, and has at least one execute bit. */
  lemma CheckHandlerPassesIff(h: Handler, fs: FileSystem)
    ensures CheckHandler(h, fs).Success? <==>
      exists name, path, mode ::
        FirstToken(h.command) == Some(name) && name in fs.which && fs.which[name] == path &&
        path in fs.files && fs.files[path] == Metadata(mode) && mode & EXECUTE_BITS != 0
  {
    if CheckHandler(h, fs).Success? {
      var name := FirstToken(h.command).value;
      var path := fs.which[name];
      assert fs.files[path] == Metadata(fs.files[path].mode);
    }
  }

  /** Each failed step reports its own error: an unresolved name, a path
      that does not exist, a file that cannot be opened, a file with no
      execute bit. */
  lemma CheckHandlerErrors(h: Handler, fs: FileSystem)
    ensures var token := FirstToken(h.command);
      token.Some? && token.value !in fs.which ==>
        CheckHandler(h, fs) == Failure(NotResolved(token.value))
    ensures var token := FirstToken(h.command);
      token.Some? && token.value in fs.which && fs.which[token.value] !in fs.files ==>
        CheckHandler(h, fs) == Failure(DoesNotExist(fs.which[token.value]))
    ensures var token := FirstToken(h.command);
      token.Some? && token.value in fs.which && fs.which[token.value] in fs.files &&
      fs.files[fs.which[token.value]] == Unopenable ==>
        CheckHandler(h, fs) == Failure(CannotOpen(fs.which[token.value]))
    ensures var token := FirstToken(h.command);
      token.Some? && token.value in fs.which && fs.which[token.value] in fs.files &&
      fs.files[fs.which[token.value]].Metadata? && fs.files[fs.which[token.value]].mode & EXECUTE_BITS == 0 ==>
        CheckHandler(h, fs) == Failure(NotAnExecutable(fs.which[token.value]))
  {
  }

  /** Items checked in order; the first failure is the answer. */
  function FirstFailure<T, E>(items: seq<T>, check: T -> Result<(), E>): (r: Result<(), E>)
  {
    if items == [] then Success(())
    else if check(items[0]).Failure? then check(items[0])
    else FirstFailure(items[1..], check)
  }

  /** `FirstFailure` succeeds iff every item passes, and otherwise returns
      the error of the first item that fails. */
  lemma {:induction false} FirstFailureIsFirst<T, E>(items: seq<T>, check: T -> Result<(), E>)
    ensures FirstFailure(items, check).Success? <==> forall i :: 0 <= i < |items| ==> check(items[i]).Success?
    ensures FirstFailure(items, check).Failure? ==>
      exists i :: (0 <= i < |items| && check(items[i]) == FirstFailure(items, check) &&
                   forall j :: 0 <= j < i ==> check(items[j]).Success?)
  {
    if items != [] && check(items[0]).Success? {
      var rest := items[1..];
      FirstFailureIsFirst(rest, check);
      assert forall i :: 1 <= i < |items| ==> items[i] == rest[i - 1];
      if FirstFailure(rest, check).Failure? {
        var i :| 0 <= i < |rest| && check(rest[i]) == FirstFailure(rest, check) &&
          forall j :: 0 <= j < i ==> check(rest[j]).Success?;
        assert check(items[i + 1]) == FirstFailure(items, check);
      }
    }
  }

  /** Once an item fails, the items after it are never looked at. */
  lemma {:induction false} FirstFailureStops<T, E>(items: seq<T>, later: seq<T>, check: T -> Result<(), E>)
    requires FirstFailure(items, check).Failure?
    ensures FirstFailure(items + later, check) == FirstFailure(items, check)
  {
    assert (items + later)[0] == items[0];
    if check(items[0]).Success? {
      assert (items + later)[1..] == items[1..] + later;
      FirstFailureStops(items[1..], later, check);
    }
  }

  /** The handler loop of `check_config`, as a value. */
  function CheckHandlers(handlers: seq<Handler>, fs: FileSystem): (r: Result<(), CheckError>)
  {
    FirstFailure(handlers, h => CheckHandler(h, fs))
  }

  /** `CheckHandlers` succeeds iff every handler passes, and otherwise
      returns the error of the first handler that fails. */
  lemma CheckHandlersFirstError(handlers: seq<Handler>, fs: FileSystem)
    ensures CheckHandlers(handlers, fs).Success? <==>
      forall i :: 0 <= i < |handlers| ==> CheckHandler(handlers[i], fs).Success?
    ensures CheckHandlers(handlers, fs).Failure? ==>
      exists i :: (0 <= i < |handlers| && CheckHandler(handlers[i], fs) == CheckHandlers(handlers, fs) &&
                   forall j :: 0 <= j < i ==> CheckHandler(handlers[j], fs).Success?)
  {
    FirstFailureIsFirst(handlers, h => CheckHandler(h, fs));
  }

  /** Once a handler fails, the handlers after it are never looked at. */
  lemma CheckStopsAtFirstError(handlers: seq<Handler>, later: seq<Handler>, fs: FileSystem)
    requires CheckHandlers(handlers, fs).Failure?
    ensures CheckHandlers(handlers + later, fs) == CheckHandlers(handlers, fs)
  {
    FirstFailureStops(handlers, later, h => CheckHandler(h, fs));
  }

  /** `check_config` on an already parsed configuration: walk the handlers
      and return at the first error. */
  method CheckConfig(config: Configuration, fs: FileSystem) returns (r: Result<(), CheckError>)
    ensures r == CheckHandlers(config.handlers, fs)
    ensures r.Success? <==> forall i :: 0 <= i < |config.handlers| ==> CheckHandler(config.handlers[i], fs).Success?
    ensures r.Failure? ==> exists i :: (0 <= i < |config.handlers| && CheckHandler(config.handlers[i], fs) == r &&
                                       forall j :: 0 <= j < i ==> CheckHandler(config.handlers[j], fs).Success?)
  {
    var handlers := config.handlers;
    for i := 0 to |handlers|
      invariant forall j :: 0 <= j < i ==> CheckHandler(handlers[j], fs).Success?
      invariant CheckHandlers(handlers, fs) == CheckHandlers(handlers[i..], fs)
    {
      var h := handlers[i];
      var name := FirstToken(h.command);
      if name.None? {
        return Failure(InvalidCommand(h.command));
      }
      if name.value !in fs.which {
        return Failure(NotResolved(name.value));
      }
      var path := fs.which[name.value];
      if path !in fs.files {
        return Failure(DoesNotExist(path));
      }
      var stat := fs.files[path];
      if stat.Unopenable? {
        return Failure(CannotOpen(path));
      }
      if NotExecutable(stat.mode) {
        return Failure(NotAnExecutable(path));
      }
      assert handlers[i..][1..] == handlers[i + 1..];
    }
    CheckHandlersFirstError(handlers, fs);
    assert handlers[|handlers|..] == [];
    return Success(());
  }

  // ---------------------------------------------------------------------
  // The tests of check_config.rs, for any single-word command

  /** A configuration whose only handler runs `command`. */
  function OneHandlerConfig(command: string): Configuration {
    Configuration(Some("test"), None, [Handler(Some("test"), command, Ok, Some(10))], None)
  }

  /** `echo`: a command that resolves to an existing file with an execute
      bit passes. */
  lemma ExecutableCommandIsAccepted(command: string, fs: FileSystem, mode: bv32)
    requires command != [] && NoWhitespace(command)
    requires command in fs.which && fs.which[command] in fs.files
    requires fs.files[fs.which[command]] == Metadata(mode) && !NotExecutable(mode)
    ensures CheckHandlers(OneHandlerConfig(command).handlers, fs) == Success(())
  {
    SingleCommand(command);
    OneHandler(OneHandlerConfig(command).handlers[0], fs);
  }

  /** `fake-test-command`, `echo_test`: a command that does not resolve is
      rejected. */
  lemma UnresolvedCommandIsRejected(command: string, fs: FileSystem)
    requires command != [] && NoWhitespace(command)
    requires command !in fs.which
    ensures CheckHandlers(OneHandlerConfig(command).handlers, fs) == Failure(NotResolved(command))
  {
    SingleCommand(command);
    OneHandler(OneHandlerConfig(command).handlers[0], fs);
  }

  /** A resolved path whose mode has no execute bit is rejected by the
      mode test. */
  lemma NonExecutableFileIsRejected(command: string, fs: FileSystem, mode: bv32)
    requires command != [] && NoWhitespace(command)
    requires command in fs.which && fs.which[command] in fs.files
    requires fs.files[fs.which[command]] == Metadata(mode) && mode & EXECUTE_BITS == 0
    ensures CheckHandlers(OneHandlerConfig(command).handlers, fs) == Failure(NotAnExecutable(fs.which[command]))
  {
    SingleCommand(command);
    OneHandler(OneHandlerConfig(command).handlers[0], fs);
  }

  /** The modes of the tests: 0o644 (`/etc/passwd`) has no execute bit;
      0o755 (`/usr/bin/echo`) and 0o744 pass. */
  lemma TestModes()
    ensures NotExecutable(0x1A4)
    ensures !NotExecutable(0x1ED) && !NotExecutable(0x1E4)
  {
  }

  /** An empty or blank command is rejected before any lookup. */
  lemma BlankCommandIsRejected(command: string, fs: FileSystem)
    requires AllWhitespace(command)
    ensures CheckHandlers(OneHandlerConfig(command).handlers, fs) == Failure(InvalidCommand(command))
  {
    OneHandler(OneHandlerConfig(command).handlers[0], fs);
  }

  lemma OneHandler(h: Handler, fs: FileSystem)
    ensures CheckHandlers([h], fs) == CheckHandler(h, fs)
  {
    assert [h][1..] == [];
    assert FirstFailure([h][1..], (h: Handler) => CheckHandler(h, fs)) == Success(());
  }

  /** A command without whitespace is its own first token. */
  lemma SingleCommand(command: string)
    requires command != [] && NoWhitespace(command)
    ensures FirstToken(command) == Some(command)
  {
    FirstTokenIgnoresArguments("", command, "");
    assert "" + command + "" == command;
  }
}
