/**
 * The path-handling part of connector.py: recognising an Azure path, splitting
 * it into (storage account, container, file path), and the storage account URL.
 * These are pure computations over the instance's two default fields.
 */
module Paths {
  import opened Wrappers
  import opened PyText

  /** The host suffix of every blob storage account. */
  const BlobHost: string := ".blob.core.windows.net"
  const HttpsScheme: string := "https://"
  const AzureScheme: string := "azure://"

  /** The instance fields `storage_account` and `container` that parsing and resolution fall back on. */
  datatype Defaults = Defaults(storageAccount: Option<string>, container: Option<string>)

  /** The dictionary returned by `parse_azure_path`. */
  datatype ParsedPath = ParsedPath(storageAccount: Option<string>, container: Option<string>, filePath: string)

  /** The exceptions the modelled code raises. */
  datatype Error =
    | IndexOutOfRange                    // `re.findall(...)[0]` on an empty list of matches
    | MissingStorageAccount              // ValueError: no storage account for the path
    | ContainerNotInAccount(container: Option<string>, storageAccount: Option<string>)  // ValueError
    | MissingAttribute(name: string)     // AttributeError: a client attribute that was never set

  /** `\.blob\.core\.windows\.net`, every dot escaped. */
  function HostPattern(): seq<Atom> {
    Escaped(BlobHost)
  }

  /** `\.blob.core.windows.net`, as is_azure_path writes it: only the first dot is escaped. */
  function LooseHostPattern(): seq<Atom> {
    [Lit('.')] + Unescaped("blob.core.windows.net")
  }

  /**
   * The match of `https://(.*)\.blob\.core\.windows\.net` attempted at index `k`
   * of `s`, giving its group: the greedy `.*` runs to the end of the line and
   * backs off to the last place the host suffix follows.
   */
  function AccountMatchAt(s: string, k: nat): Option<string>
    requires k <= |s|
  {
    if StartsWith(s[k..], HttpsScheme) then GreedyCapture(Line(s[k + |HttpsScheme|..]), HostPattern())
    else None
  }

  /**
   * The first element of `re.findall(r"https://(.*)\.blob\.core\.windows\.net", s[k..])`,
   * or `None` when the list is empty: matches are tried from left to right, so
   * it is the group of the leftmost start position that matches.
   */
  function FindAccount(s: string, k: nat): (r: Option<string>)
    requires k <= |s|
    ensures r.None? <==> forall j :: k <= j <= |s| ==> AccountMatchAt(s, j).None?
    ensures r.Some? ==>
      exists j :: k <= j <= |s| && AccountMatchAt(s, j) == r && forall i :: k <= i < j ==> AccountMatchAt(s, i).None?
    decreases |s| - k
  {
    match AccountMatchAt(s, k)
    case Some(account) => Some(account)
    case None => if k == |s| then None else FindAccount(s, k + 1)
  }

  /** `f"https://{storage_account}.blob.core.windows.net/"`; Python formats `None` as `"None"`. */
  function BlobStorageUrl(storageAccount: Option<string>): (url: string)
    ensures storageAccount.Some? ==> url == HttpsScheme + storageAccount.value + BlobHost + "/"
    ensures storageAccount.None? ==> url == "https://None.blob.core.windows.net/"
  {
    HttpsScheme + Show(storageAccount) + BlobHost + "/"
  }

  /** How an f-string shows an optional string. */
  function Show(o: Option<string>): string {
    match o
    case None => "None"
    case Some(s) => s
  }

  /**
   * `parse_azure_path`: an `https://` path takes its account from the URL; an
   * `azure://` path takes the instance's account; any other path is opaque and
   * becomes the file path, with both instance fields unchanged.
   */
  function ParseAzurePath(d: Defaults, path: string): (r: Result<ParsedPath, Error>)
    ensures !StartsWith(path, HttpsScheme) ==> r.Ok? && r.value.storageAccount == d.storageAccount
    ensures r.Err? ==> r == Err(IndexOutOfRange) && StartsWith(path, HttpsScheme)
  {
    if StartsWith(path, HttpsScheme) then
      match FindAccount(path, 0)
      case None => Err(IndexOutOfRange)
      case Some(account) =>
        var rest := ReplaceAll(path, HttpsScheme + account + BlobHost + "/", "");
        var (container, filePath) := SplitOff(rest, '/');
        Ok(ParsedPath(Some(account), Some(container), filePath))
    else if StartsWith(path, AzureScheme) then
      var rest := ReplaceAll(path, AzureScheme, "");
      var (container, filePath) := SplitOff(rest, '/');
      Ok(ParsedPath(d.storageAccount, Some(container), filePath))
    else
      Ok(ParsedPath(d.storageAccount, d.container, path))
  }

  /**
   * `is_azure_path`: `re.match` of `https://.*\.blob.core.windows.net` (dots
   * after the first unescaped) or of `azure://` at the start of `path`.
   */
  predicate IsAzurePath(path: string)
    ensures IsAzurePath(path) ==> StartsWith(path, HttpsScheme) || StartsWith(path, AzureScheme)
    ensures StartsWith(path, AzureScheme) ==> IsAzurePath(path)
  {
    || (StartsWith(path, HttpsScheme) && GreedyCapture(Line(path[|HttpsScheme|..]), LooseHostPattern()).Some?)
    || StartsWith(path, AzureScheme)
  }

  /** The corrected recogniser: `https://.*\.blob\.core\.windows\.net` with every dot escaped. */
  predicate IsAzurePathEscaped(path: string) {
    || (StartsWith(path, HttpsScheme) && GreedyCapture(Line(path[|HttpsScheme|..]), HostPattern()).Some?)
    || StartsWith(path, AzureScheme)
  }

  // ---------------------------------------------------------------------------
  // Facts about the host suffix

  /** No position of `.blob.core.windows.net/` after the first holds a `.` followed by `b`. */
  lemma HostSlashShape()
    ensures forall o :: 1 <= o < 22 ==> (BlobHost + "/")[o] != '.' || (BlobHost + "/")[o + 1] != 'b'
    ensures (BlobHost + "/")[22] == '/'
  {
  }

  lemma HostSlashNoRepeatNear(tail: string, o: nat)
    requires 1 <= o < 23
    ensures !OccursAt(BlobHost + "/" + tail, BlobHost, o)
  {
    var s := BlobHost + "/" + tail;
    if OccursAt(s, BlobHost, o) {
      assert s[o] == '.' && s[o + 1] == 'b' by {
        assert s[o..o + 22][0] == s[o];
        assert s[o..o + 22][1] == s[o + 1];
      }
      HostSlashShape();
      assert false;
    }
  }

  lemma HostSlashNoRepeatFar(tail: string, o: nat)
    requires 23 <= o && !OccursIn(tail, BlobHost)
    ensures !OccursAt(BlobHost + "/" + tail, BlobHost, o)
  {
    var s := BlobHost + "/" + tail;
    if OccursAt(s, BlobHost, o) {
      assert s[o..o + 22] == tail[o - 23..o - 1];
      assert OccursAt(tail, BlobHost, o - 23);
    }
  }

  /** After the host suffix of a URL, the suffix occurs again only if it occurs in what follows the `/`. */
  lemma HostSlashNoRepeat(tail: string, o: nat)
    requires 1 <= o && !OccursIn(tail, BlobHost)
    ensures !OccursAt(BlobHost + "/" + tail, BlobHost, o)
  {
    if o < 23 {
      HostSlashNoRepeatNear(tail, o);
    } else {
      HostSlashNoRepeatFar(tail, o);
    }
  }

  lemma NoOccurrenceInPrefix(s: string, p: string, t: string)
    requires StartsWith(s, p) && !OccursIn(s, t)
    ensures !OccursIn(p, t)
  {
    if i: nat :| i <= |p| && OccursAt(p, t, i) {
      assert p[i..i + |t|] == s[i..i + |t|];
      assert OccursAt(s, t, i);
    }
  }

  lemma NoNewlineInHost(a: string)
    requires '\n' !in a
    ensures '\n' !in a + BlobHost + "/" && '\n' !in a + BlobHost
  {
  }

  // ---------------------------------------------------------------------------
  // parse_azure_path

  /** In the line after the scheme, the last host suffix is the one that ends the account. */
  lemma GreedyCaptureOfAccountLine(a: string, lineRest: string)
    requires !OccursIn(lineRest, BlobHost)
    ensures GreedyCapture(a + (BlobHost + "/" + lineRest), HostPattern()) == Some(a)
  {
    var after := BlobHost + "/" + lineRest;
    var line := a + after;
    assert line[|a|..|a| + |BlobHost|] == BlobHost;
    EscapedMatchesAt(line, BlobHost, |a|);
    forall j | |a| < j <= |line| ensures !MatchesAt(line, HostPattern(), j) {
      EscapedMatchesAt(line, BlobHost, j);
      HostSlashNoRepeat(lineRest, j - |a|);
      if j + |BlobHost| <= |line| {
        assert line[j..j + |BlobHost|] == after[j - |a|..j - |a| + |BlobHost|];
      }
    }
    match LastMatch(line, HostPattern(), |line|)
    case Some(v) =>
      assert v == |a|;
      assert line[..|a|] == a;
    case None =>
  }

  lemma AccountUrlLine(a: string, rest: string)
    requires '\n' !in a
    ensures StartsWith(HttpsScheme + a + BlobHost + "/" + rest, HttpsScheme)
    ensures Line((HttpsScheme + a + BlobHost + "/" + rest)[|HttpsScheme|..]) == a + (BlobHost + "/" + Line(rest))
  {
    var u := a + BlobHost + "/";
    assert HttpsScheme + a + BlobHost + "/" + rest == HttpsScheme + u + rest;
    NoNewlineInHost(a);
    LineAfterPrefix(HttpsScheme, u, rest);
    assert u + Line(rest) == a + (BlobHost + "/" + Line(rest));
  }

  /** After a prefix, the line of a newline-free text followed by more text. */
  lemma LineAfterPrefix(p: string, u: string, rest: string)
    requires '\n' !in u
    ensures StartsWith(p + u + rest, p)
    ensures Line((p + u + rest)[|p|..]) == u + Line(rest)
  {
    assert (p + u + rest)[..|p|] == p;
    assert (p + u + rest)[|p|..] == u + rest;
    LineOfConcat(u, rest);
  }

  /**
   * The first `findall` match in an account URL followed by a container and a
   * file path captures the account, as long as the host suffix does not occur
   * again after it.
   */
  lemma BlobUrlCapture(a: string, rest: string)
    requires '\n' !in a && !OccursIn(rest, BlobHost)
    ensures FindAccount(HttpsScheme + a + BlobHost + "/" + rest, 0) == Some(a)
  {
    var path := HttpsScheme + a + BlobHost + "/" + rest;
    assert path[0..] == path;
    AccountUrlLine(a, rest);
    NoOccurrenceInPrefix(rest, Line(rest), BlobHost);
    GreedyCaptureOfAccountLine(a, Line(rest));
    assert AccountMatchAt(path, 0) == Some(a);
  }

  /** No occurrence of the host suffix means no occurrence of a prefix that contains it. */
  lemma PrefixAbsent(a: string, rest: string)
    requires !OccursIn(rest, BlobHost)
    ensures !OccursIn(rest, HttpsScheme + a + BlobHost + "/")
  {
    var p := HttpsScheme + a + BlobHost + "/";
    if i: nat :| i <= |rest| && OccursAt(rest, p, i) {
      var m := |HttpsScheme| + |a|;
      assert p[m..m + |BlobHost|] == BlobHost;
      assert rest[i..i + |p|] == p;
      SliceOfSlice(rest, i, i + |p|, m, m + |BlobHost|);
      assert OccursAt(rest, BlobHost, i + m);
    }
  }

  /** Removing every copy of the account prefix leaves the container and file path. */
  lemma StripAccountPrefix(a: string, rest: string)
    requires !OccursIn(rest, BlobHost)
    ensures ReplaceAll(HttpsScheme + a + BlobHost + "/" + rest, HttpsScheme + a + BlobHost + "/", "") == rest
  {
    var prefix := HttpsScheme + a + BlobHost + "/";
    var path := prefix + rest;
    assert path[..|prefix|] == prefix;
    assert path[|prefix|..] == rest;
    PrefixAbsent(a, rest);
  }

  /** `"c/f".split("/")`, first part popped, rest joined: `c` and `f`. */
  lemma SplitOffContainer(c: string, f: string)
    requires '/' !in c
    ensures SplitOff(c + "/" + f, '/') == (c, f)
  {
    SplitAtFirst(c, f, '/');
    JoinSplit(f, '/');
  }

  /**
   * `https://<a>.blob.core.windows.net/<c>/<f>` parses to account `a`,
   * container `c` and file path `f`, every `/` inside `f` kept. Since the
   * account URL is `get_blob_storage_url`'s result, this is also the round trip
   * from an account name to its URL and back. The capture is greedy, so the
   * host suffix must not occur again after the account.
   */
  lemma BlobUrlParses(d: Defaults, a: string, c: string, f: string)
    requires '\n' !in a && '/' !in c && !OccursIn(c + "/" + f, BlobHost)
    ensures ParseAzurePath(d, BlobStorageUrl(Some(a)) + c + "/" + f) == Ok(ParsedPath(Some(a), Some(c), f))
  {
    var rest := c + "/" + f;
    var path := BlobStorageUrl(Some(a)) + c + "/" + f;
    assert path == HttpsScheme + a + BlobHost + "/" + rest;
    AccountUrlLine(a, rest);
    BlobUrlCapture(a, rest);
    StripAccountPrefix(a, rest);
    SplitOffContainer(c, f);
  }

  /**
   * `azure://<c>/<f>` parses to container `c` and file path `f`, and the
   * account is the instance's (possibly `None`), never taken from the path.
   */
  lemma {:induction false} ShortFormParses(d: Defaults, c: string, f: string)
    requires '/' !in c && !OccursIn(c + "/" + f, AzureScheme)
    ensures ParseAzurePath(d, AzureScheme + c + "/" + f) == Ok(ParsedPath(d.storageAccount, Some(c), f))
  {
    var rest := c + "/" + f;
    var path := AzureScheme + rest;
    assert AzureScheme + c + "/" + f == path;
    assert !StartsWith(path, HttpsScheme) by {
      assert path[0] == 'a';
    }
    assert StartsWith(path, AzureScheme) by {
      assert path[..|AzureScheme|] == AzureScheme;
    }
    assert path[|AzureScheme|..] == rest;
    assert ReplaceAll(path, AzureScheme, "") == rest;
    SplitAtFirst(c, f, '/');
    JoinSplit(f, '/');
    assert '/' in rest by {
      assert rest[|c|] == '/';
    }
  }

  /** For an `azure://` path the container and file path do not depend on the instance, and the account is the instance's. */
  lemma ShortFormAccountFromInstance(d1: Defaults, d2: Defaults, path: string)
    requires StartsWith(path, AzureScheme)
    ensures ParseAzurePath(d1, path).Ok? && ParseAzurePath(d2, path).Ok?
    ensures ParseAzurePath(d1, path).value.storageAccount == d1.storageAccount
    ensures ParseAzurePath(d1, path).value.container == ParseAzurePath(d2, path).value.container
    ensures ParseAzurePath(d1, path).value.filePath == ParseAzurePath(d2, path).value.filePath
  {
    assert path[0] == 'a';
  }

  /** A path with neither prefix is the file path, with both instance fields unchanged. */
  lemma OpaquePathUnchanged(d: Defaults, path: string)
    requires !StartsWith(path, HttpsScheme) && !StartsWith(path, AzureScheme)
    ensures ParseAzurePath(d, path) == Ok(ParsedPath(d.storageAccount, d.container, path))
  {
  }

  lemma NoAccountMatchWithoutHost(path: string, k: nat)
    requires k <= |path| && !OccursIn(path, BlobHost)
    ensures AccountMatchAt(path, k).None?
  {
    if StartsWith(path[k..], HttpsScheme) {
      var n := k + |HttpsScheme|;
      var tail := path[n..];
      var line := Line(tail);
      var cap := GreedyCapture(line, HostPattern());
      if cap.Some? {
        var j := |cap.value|;
        EscapedMatchesAt(line, BlobHost, j);
        assert line == tail[..|line|];
        assert line[j..j + |BlobHost|] == tail[j..j + |BlobHost|];
        assert tail[j..j + |BlobHost|] == path[n + j..n + j + |BlobHost|];
        assert OccursAt(path, BlobHost, n + j);
      }
    }
  }

  /** An `https://` path without the host suffix raises: `findall` returns no match to index. */
  lemma HttpsWithoutHostFails(d: Defaults, path: string)
    requires StartsWith(path, HttpsScheme) && !OccursIn(path, BlobHost)
    ensures ParseAzurePath(d, path) == Err(IndexOutOfRange)
  {
    forall k | 0 <= k <= |path| ensures AccountMatchAt(path, k).None? {
      NoAccountMatchWithoutHost(path, k);
    }
  }

  // ---------------------------------------------------------------------------
  // is_azure_path

  /** The loose pattern matches the host suffix itself. */
  lemma LoosePatternMatchesHost(s: string, j: nat)
    requires OccursAt(s, BlobHost, j)
    ensures MatchesAt(s, LooseHostPattern(), j)
  {
    var t := "blob.core.windows.net";
    assert BlobHost == ['.'] + t;
    forall i | 0 <= i < |BlobHost| ensures AtomMatches(LooseHostPattern()[i], s[j + i]) {
      assert s[j + i] == s[j..j + |BlobHost|][i] == BlobHost[i];
      if i > 0 {
        assert LooseHostPattern()[i] == Unescaped(t)[i - 1];
        assert BlobHost[i] == t[i - 1];
      }
    }
  }

  /** Where the escaped pattern matches a line, the loose one matches too. */
  lemma EscapedImpliesLoose(line: string, j: nat)
    requires '\n' !in line && MatchesAt(line, HostPattern(), j)
    ensures MatchesAt(line, LooseHostPattern(), j)
  {
    EscapedMatchesAt(line, BlobHost, j);
    LoosePatternMatchesHost(line, j);
  }

  /** Every `azure://` path is recognised. */
  lemma ShortFormIsAzurePath(t: string)
    ensures IsAzurePath(AzureScheme + t)
  {
    assert (AzureScheme + t)[..|AzureScheme|] == AzureScheme;
  }

  /** Every `https://<a>.blob.core.windows.net...` path is recognised, whatever follows the host. */
  lemma {:induction false} BlobUrlIsAzurePath(a: string, rest: string)
    requires '\n' !in a
    ensures IsAzurePath(HttpsScheme + a + BlobHost + rest)
  {
    var path := HttpsScheme + a + BlobHost + rest;
    assert path[..|HttpsScheme|] == HttpsScheme;
    assert path[|HttpsScheme|..] == (a + BlobHost) + rest;
    NoNewlineInHost(a);
    LineOfConcat(a + BlobHost, rest);
    var line := a + BlobHost + Line(rest);
    assert line[|a|..|a| + |BlobHost|] == BlobHost;
    LoosePatternMatchesHost(line, |a|);
  }

  /** Paths that start like local paths (`/home/...`, `./...`, `~/...`) are not recognised. */
  lemma LocalPathIsNotAzurePath(path: string)
    requires path != [] && path[0] != 'h' && path[0] != 'a'
    ensures !IsAzurePath(path)
  {
  }

  /** What the corrected recogniser accepts, parse_azure_path parses without raising. */
  lemma EscapedRecogniserParses(d: Defaults, path: string)
    requires IsAzurePathEscaped(path)
    ensures ParseAzurePath(d, path).Ok?
  {
    if StartsWith(path, HttpsScheme) {
      assert path[0..] == path;
      assert AccountMatchAt(path, 0).Some?;
    }
  }

  /** The corrected recogniser accepts nothing that is_azure_path rejects. */
  lemma EscapedRecogniserIsStricter(path: string)
    requires IsAzurePathEscaped(path)
    ensures IsAzurePath(path)
  {
    if StartsWith(path, HttpsScheme) && !StartsWith(path, AzureScheme) {
      var line := Line(path[|HttpsScheme|..]);
      var j := |GreedyCapture(line, HostPattern()).value|;
      EscapedImpliesLoose(line, j);
    }
  }

  /** `https://a.blob-core.windows.net/c`: the host has a `-` where a dot belongs. */
  const MisspelledHostLine: string := "a.blob-core.windows.net/c"
  const MisspelledHostUrl: string := HttpsScheme + MisspelledHostLine

  lemma MisspelledHostHasNoHost()
    ensures !OccursIn(MisspelledHostUrl, BlobHost)
  {
    var head, tail := "https://a", ".blob-core.windows.net/c";
    var path := head + tail;
    assert path == MisspelledHostUrl;
    forall i: nat | i <= |path| ensures !OccursAt(path, BlobHost, i) {
      if i + |BlobHost| <= |path| {
        var w := path[i..i + |BlobHost|];
        assert w[0] == path[i] && w[5] == path[i + 5];
        if i < |head| {
          assert path[i] == head[i] != '.';
        } else if i == |head| {
          assert path[i + 5] == tail[5] == '-';
        } else {
          assert path[i] == tail[i - |head|] != '.';
        }
      }
    }
  }

  lemma MisspelledHostLineIsOneLine()
    ensures Line(MisspelledHostLine) == MisspelledHostLine
  {
    LineWithoutNewline(MisspelledHostLine);
  }

  lemma MisspelledHostLineMatchesLoosely()
    ensures GreedyCapture(MisspelledHostLine, LooseHostPattern()).Some?
  {
    var t := "blob.core.windows.net";
    var w := "blob-core.windows.net";
    assert MisspelledHostLine == "a." + w + "/c";
    forall i | 0 <= i < |t| ensures AtomMatches(Unescaped(t)[i], w[i]) {
      assert t[i] == '.' || t[i] == w[i];
    }
    forall i | 0 <= i < |LooseHostPattern()|
      ensures AtomMatches(LooseHostPattern()[i], MisspelledHostLine[1 + i])
    {
      if i > 0 {
        assert LooseHostPattern()[i] == Unescaped(t)[i - 1];
        assert MisspelledHostLine[1 + i] == w[i - 1];
      }
    }
    assert MatchesAt(MisspelledHostLine, LooseHostPattern(), 1);
  }

  lemma MisspelledHostIsRecognised()
    ensures IsAzurePath(MisspelledHostUrl)
  {
    MisspelledHostLineIsOneLine();
    MisspelledHostLineMatchesLoosely();
    assert MisspelledHostUrl[..|HttpsScheme|] == HttpsScheme;
    assert MisspelledHostUrl[|HttpsScheme|..] == MisspelledHostLine;
  }

  /**
   * As written, is_azure_path accepts a URL whose host has a `-` where a dot
   * belongs, and parse_azure_path then raises on it.
   */
  lemma LooseDotsAcceptUnparsable(d: Defaults)
    ensures IsAzurePath(MisspelledHostUrl)
    ensures ParseAzurePath(d, MisspelledHostUrl) == Err(IndexOutOfRange)
  {
    MisspelledHostIsRecognised();
    MisspelledHostHasNoHost();
    assert MisspelledHostUrl[..|HttpsScheme|] == HttpsScheme;
    HttpsWithoutHostFails(d, MisspelledHostUrl);
  }
}
