/**
 * The RTSP screenshot client: how it puts credentials into the stream URL before opening it, and
 * how it reads its command line. Opening the stream, reading frames and writing images are
 * OpenCV calls; whether a URL opens is a parameter.
 */
module RtspScreenshotTool {
  import opened Wrappers
  import opened Text

  // ---------------------------------------------------------------- the stream URL

  /**
   * The URL `connect` opens: with both a user name and a password, `user:pass@` goes right after
   * the first `://`; None when there are credentials but no `://` (the stream is not opened).
   */
  function AuthenticatedUrl(url: string, user: string, pass: string): Option<string> {
    if user != "" && pass != "" then
      match IndexOf(url, "://")
      case Some(p) => Some(url[..p + 3] + user + ":" + pass + "@" + url[p + 3..])
      case None => None
    else Some(url)
  }

  /**
   * Takes the user information back out of a URL: the text between the first `://` and the
   * first `@` after it, and the URL without it; None when either is missing.
   */
  function SplitUserInfo(url: string): Option<(string, string)> {
    match IndexOf(url, "://")
    case None => None
    case Some(p) =>
      var (info, rest) := TakeUntil(url[p + 3..], '@');
      if rest == "" then None else Some((info, url[..p + 3] + rest[1..]))
  }

  /** An occurrence with none before it is the one IndexOf finds. */
  lemma FirstOccurrence(s: string, pat: string, p: nat)
    requires OccursAt(s, pat, p)
    requires forall j: nat :: j < p ==> !OccursAt(s, pat, j)
    ensures IndexOf(s, pat) == Some(p)
  {
    var q := IndexOf(s, pat);
    assert q.Some?;
    assert !(q.value < p);
  }

  /** Occurrences that end within `t[..k]` are the same in `t` and in `t[..k]`. */
  lemma OccursInPrefix(t: string, k: nat, pat: string, j: nat)
    requires k <= |t| && j + |pat| <= k
    ensures OccursAt(t, pat, j) <==> OccursAt(t[..k], pat, j)
  {
    assert t[..k][j..j + |pat|] == t[j..j + |pat|];
  }

  /** Text appended after the first occurrence of a pattern leaves that first occurrence in place. */
  lemma IndexOfAfterFirst(a: string, b: string, pat: string)
    requires IndexOf(a, pat).Some?
    ensures IndexOf(a + b, pat) == IndexOf(a, pat)
  {
    var p := IndexOf(a, pat).value;
    var t := a + b;
    assert t[..|a|] == a;
    OccursInPrefix(t, |a|, pat, p);
    forall j: nat | j < p ensures !OccursAt(t, pat, j) {
      OccursInPrefix(t, |a|, pat, j);
    }
    FirstOccurrence(t, pat, p);
  }

  /** Cutting a text after the first occurrence of a pattern leaves that first occurrence in place. */
  lemma IndexOfInPrefix(s: string, k: nat, pat: string)
    requires IndexOf(s, pat).Some? && IndexOf(s, pat).value + |pat| <= k <= |s|
    ensures IndexOf(s[..k], pat) == IndexOf(s, pat)
  {
    var p := IndexOf(s, pat).value;
    OccursInPrefix(s, k, pat, p);
    forall j: nat | j < p ensures !OccursAt(s[..k], pat, j) {
      OccursInPrefix(s, k, pat, j);
    }
    FirstOccurrence(s[..k], pat, p);
  }

  /** User information put right after the scheme of a URL is split off again. */
  lemma SplitInjected(protocol: string, info: string, remainder: string)
    requires |protocol| >= 3 && IndexOf(protocol, "://") == Some(|protocol| - 3)
    requires '@' !in info
    ensures SplitUserInfo(protocol + (info + ("@" + remainder))) == Some((info, protocol + remainder))
  {
    var tail := info + ("@" + remainder);
    var final := protocol + tail;
    IndexOfAfterFirst(protocol, tail, "://");
    assert final[|protocol|..] == tail;
    assert final[..|protocol|] == protocol;
    TakeUntilJoin(info, "@" + remainder, '@');
    assert ("@" + remainder)[1..] == remainder;
  }

  /**
   * The credentials put into a URL are read back out of it, together with the original URL,
   * when neither holds an `@`.
   */
  lemma {:induction false} UserInfoRoundTrip(url: string, user: string, pass: string)
    requires user != "" && pass != "" && IndexOf(url, "://").Some?
    requires '@' !in user && '@' !in pass
    ensures AuthenticatedUrl(url, user, pass).Some?
    ensures SplitUserInfo(AuthenticatedUrl(url, user, pass).value) == Some((user + ":" + pass, url))
  {
    var p := IndexOf(url, "://").value;
    var protocol, remainder := url[..p + 3], url[p + 3..];
    var info := user + ":" + pass;
    IndexOfInPrefix(url, p + 3, "://");
    SplitInjected(protocol, info, remainder);
    var final := protocol + user + ":" + pass + "@" + remainder;
    assert AuthenticatedUrl(url, user, pass) == Some(final);
    assert final == protocol + (info + ("@" + remainder));
    assert protocol + remainder == url;
  }

  /** Without both a user name and a password the URL is opened as given. */
  lemma UrlUnchangedWithoutCredentials(url: string, user: string, pass: string)
    requires user == "" || pass == ""
    ensures AuthenticatedUrl(url, user, pass) == Some(url)
  {
  }

  /** With credentials, a URL without `://` is refused. */
  lemma CredentialsNeedScheme(url: string, user: string, pass: string)
    requires user != "" && pass != ""
    ensures AuthenticatedUrl(url, user, pass).None? <==> forall j: nat :: !OccursAt(url, "://", j)
  {
    if IndexOf(url, "://").Some? {
      assert OccursAt(url, "://", IndexOf(url, "://").value);
    }
  }

  class RtspScreenshot {
    var rtspUrl: string
    var username: string
    var password: string

    /** A client for `url` without credentials. */
    constructor (url: string)
      ensures rtspUrl == url && username == "" && password == ""
    {
      rtspUrl := url;
      username := "";
      password := "";
    }

    /** A client for `url` that logs in as `user` with `pass`. */
    constructor WithCredentials(url: string, user: string, pass: string)
      ensures rtspUrl == url && username == user && password == pass
    {
      rtspUrl := url;
      username := user;
      password := pass;
    }

    /**
     * Composes the URL and opens it: `openedUrl` is the URL handed to the capture (None when
     * the URL was refused before opening), and `ok` whether the stream is open.
     */
    method Connect(opens: string -> bool) returns (ok: bool, openedUrl: Option<string>)
      ensures openedUrl == AuthenticatedUrl(rtspUrl, username, password)
      ensures ok <==> openedUrl.Some? && opens(openedUrl.value)
    {
      var finalUrl := rtspUrl;
      if username != "" && password != "" {
        var protocolEnd := IndexOf(rtspUrl, "://");
        if protocolEnd.Some? {
          var protocol := rtspUrl[..protocolEnd.value + 3];
          var remainder := rtspUrl[protocolEnd.value + 3..];
          finalUrl := protocol + username + ":" + password + "@" + remainder;
        } else {
          return false, None;
        }
      }
      openedUrl := Some(finalUrl);
      ok := opens(finalUrl);
    }
  }

  // ---------------------------------------------------------------- the command line

  /** What the command line sets. */
  datatype Options = Options(rtspUrl: string, outputFile: string, username: string, password: string, displayMode: bool)

  predicate TakesValue(arg: string) {
    arg == "--user" || arg == "--pass" || arg == "--output"
  }

  /**
   * The options after reading `args` (the arguments after the URL) starting from `o`: a flag
   * that takes a value takes the next argument when there is one, `--display` needs none, and
   * anything else is skipped.
   */
  function Scan(args: seq<string>, o: Options): Options
    decreases |args|
  {
    if |args| == 0 then o
    else if args[0] == "--user" && |args| > 1 then Scan(args[2..], o.(username := args[1]))
    else if args[0] == "--pass" && |args| > 1 then Scan(args[2..], o.(password := args[1]))
    else if args[0] == "--output" && |args| > 1 then Scan(args[2..], o.(outputFile := args[1]))
    else if args[0] == "--display" then Scan(args[1..], o.(displayMode := true))
    else Scan(args[1..], o)
  }

  /** The options before any argument is read. */
  function Defaults(url: string): Options {
    Options(url, "screenshot.jpg", "", "", false)
  }

  /** `args` is read to its end without a flag left waiting for its value. */
  predicate Complete(args: seq<string>)
    decreases |args|
  {
    if |args| == 0 then true
    else if TakesValue(args[0]) then |args| > 1 && Complete(args[2..])
    else Complete(args[1..])
  }

  /** Reading a complete prefix and then the rest is reading both in one go. */
  lemma {:induction false} ScanAppend(a: seq<string>, b: seq<string>, o: Options)
    requires Complete(a)
    ensures Scan(a + b, o) == Scan(b, Scan(a, o))
    decreases |a|
  {
    if |a| > 0 {
      var ab := a + b;
      assert ab[0] == a[0];
      if TakesValue(a[0]) {
        assert ab[1] == a[1];
        assert ab[2..] == a[2..] + b;
        var o' := if a[0] == "--user" then o.(username := a[1])
                  else if a[0] == "--pass" then o.(password := a[1])
                  else o.(outputFile := a[1]);
        ScanAppend(a[2..], b, o');
      } else {
        assert ab[1..] == a[1..] + b;
        var o' := if a[0] == "--display" then o.(displayMode := true) else o;
        ScanAppend(a[1..], b, o');
      }
    } else {
      assert a + b == b;
    }
  }

  /** After a complete prefix, a later `--user` overwrites whatever user name came before. */
  lemma LaterUserWins(a: seq<string>, v: string, o: Options)
    requires Complete(a)
    ensures Scan(a + ["--user", v], o).username == v
  {
    ScanAppend(a, ["--user", v], o);
  }

  /** A value-taking flag with nothing after it changes nothing. */
  lemma TrailingFlagIgnored(flag: string, o: Options)
    requires TakesValue(flag)
    ensures Scan([flag], o) == o
  {
  }

  /** A flag's value is consumed, never read as an option: `--user --display` names a user. */
  lemma ConsumedValueSkipped(o: Options)
    ensures Scan(["--user", "--display"], o) == o.(username := "--display")
  {
    assert ["--user", "--display"][2..] == [];
  }

  /** Arguments that are no option are ignored, and an option never seen keeps its value. */
  lemma {:induction false} UnmentionedOptionsKept(args: seq<string>, o: Options)
    requires forall k :: 0 <= k < |args| ==> args[k] != "--output"
    ensures Scan(args, o).outputFile == o.outputFile
    ensures Scan(args, o).rtspUrl == o.rtspUrl
    decreases |args|
  {
    if |args| > 0 {
      if TakesValue(args[0]) && |args| > 1 {
        var o' := if args[0] == "--user" then o.(username := args[1]) else o.(password := args[1]);
        UnmentionedOptionsKept(args[2..], o');
      } else {
        var o' := if args[0] == "--display" then o.(displayMode := true) else o;
        UnmentionedOptionsKept(args[1..], o');
      }
    }
  }

  /**
   * Reads the command line of `main`: None (usage, exit code -1) without a URL, otherwise the
   * URL from the first argument and the options from the arguments after it.
   */
  method ParseArgs(argv: seq<string>) returns (r: Option<Options>)
    ensures |argv| < 2 <==> r.None?
    ensures |argv| >= 2 ==> r == Some(Scan(argv[2..], Defaults(argv[1])))
  {
    if |argv| < 2 {
      return None;
    }
    var rtspUrl := argv[1];
    var outputFile := "screenshot.jpg";
    var username := "";
    var password := "";
    var displayMode := false;
    var i := 2;
    while i < |argv|
      invariant 2 <= i <= |argv|
      invariant Scan(argv[i..], Options(rtspUrl, outputFile, username, password, displayMode)) == Scan(argv[2..], Defaults(argv[1]))
      decreases |argv| - i
    {
      var arg := argv[i];
      ghost var rest := argv[i..];
      assert rest[0] == arg;
      if arg == "--user" && i + 1 < |argv| {
        assert rest[1] == argv[i + 1] && rest[2..] == argv[i + 2..];
        i := i + 1;
        username := argv[i];
      } else if arg == "--pass" && i + 1 < |argv| {
        assert rest[1] == argv[i + 1] && rest[2..] == argv[i + 2..];
        i := i + 1;
        password := argv[i];
      } else if arg == "--output" && i + 1 < |argv| {
        assert rest[1] == argv[i + 1] && rest[2..] == argv[i + 2..];
        i := i + 1;
        outputFile := argv[i];
      } else if arg == "--display" {
        assert rest[1..] == argv[i + 1..];
        displayMode := true;
      } else {
        assert rest[1..] == argv[i + 1..];
      }
      i := i + 1;
    }
    r := Some(Options(rtspUrl, outputFile, username, password, displayMode));
  }

  /** The first argument is always the URL, and the output file defaults to `screenshot.jpg`. */
  lemma CommandLineDefaults(argv: seq<string>)
    requires |argv| >= 2
    requires forall k :: 2 <= k < |argv| ==> argv[k] != "--output"
    ensures Scan(argv[2..], Defaults(argv[1])).rtspUrl == argv[1]
    ensures Scan(argv[2..], Defaults(argv[1])).outputFile == "screenshot.jpg"
  {
    var args := argv[2..];
    forall k | 0 <= k < |args| ensures args[k] != "--output" {
      assert args[k] == argv[k + 2];
    }
    UnmentionedOptionsKept(args, Defaults(argv[1]));
  }
}
