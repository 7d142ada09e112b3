/**
 * args_handler.py: the two decorators that, before a Connector method runs,
 * turn its keyword arguments into a resolved storage account, container and
 * file path. Each is modelled as a function from the call's keywords and the
 * instance's two default fields to the keywords the wrapped method receives,
 * or to the exception raised instead.
 */
module ArgsHandler {
  import opened Wrappers
  import opened PyText
  import opened Paths

  /** A call's keyword arguments; a keyword passed as `None` maps to `None`. */
  type Kwargs = map<string, Option<string>>

  /** `kwargs.get(key, None)`; also the value a keyword parameter takes, `None` by default. */
  function Get(kw: Kwargs, key: string): Option<string> {
    if key in kw then kw[key] else None
  }

  /** Two keywords of one group differ when their names do. */
  lemma {:induction false} PrefixCancels(prefix: string, a: string, b: string)
    requires a != b
    ensures prefix + a != prefix + b
  {
    assert (prefix + a)[|prefix|..] == a;
    assert (prefix + b)[|prefix|..] == b;
  }

  /** The three location keywords of one group, with the group's prefix (`""`, `"source_"` or `"dest_"`). */
  function Located(prefix: string, storageAccount: Option<string>, container: Option<string>, filePath: Option<string>): (m: Kwargs)
    ensures m.Keys == {prefix + "storage_account", prefix + "container", prefix + "file_path"}
    ensures Get(m, prefix + "storage_account") == storageAccount
    ensures Get(m, prefix + "container") == container
    ensures Get(m, prefix + "file_path") == filePath
  {
    PrefixCancels(prefix, "storage_account", "container");
    PrefixCancels(prefix, "storage_account", "file_path");
    PrefixCancels(prefix, "container", "file_path");
    map[prefix + "storage_account" := storageAccount, prefix + "container" := container, prefix + "file_path" := filePath]
  }

  /**
   * The branch taken when the group's path is given: parse it; a truthy parsed
   * account wins, otherwise the group's `storage_account` keyword is used, and
   * only `None` there raises. Container and file path come from the parse.
   */
  function FromPath(d: Defaults, kw: Kwargs, prefix: string): (r: Result<Kwargs, Error>)
    requires Truthy(Get(kw, prefix + "path"))
    ensures r.Ok? ==> r.value.Keys == {prefix + "storage_account", prefix + "container", prefix + "file_path"}
    ensures r.Ok? ==> Get(r.value, prefix + "storage_account").Some?
  {
    match ParseAzurePath(d, Get(kw, prefix + "path").value)
    case Err(e) => Err(e)
    case Ok(parsed) =>
      var storageAccount :=
        if Truthy(parsed.storageAccount) then parsed.storageAccount
        else Get(kw, prefix + "storage_account");
      if storageAccount.None? then Err(MissingStorageAccount)
      else Ok(Located(prefix, storageAccount, parsed.container, Some(parsed.filePath)))
  }

  /**
   * The branch taken without a path: a truthy keyword wins over the instance
   * field, for the account and the container; the file path is the keyword
   * alone. Nothing is checked here.
   */
  function FromKeywords(d: Defaults, kw: Kwargs, prefix: string): (m: Kwargs)
    ensures m.Keys == {prefix + "storage_account", prefix + "container", prefix + "file_path"}
  {
    var storageAccount := Get(kw, prefix + "storage_account");
    var container := Get(kw, prefix + "container");
    Located(prefix,
      if Truthy(storageAccount) then storageAccount else d.storageAccount,
      if Truthy(container) then container else d.container,
      Get(kw, prefix + "file_path"))
  }

  /** One group of location keywords resolved as `arguments_decorator` does it. */
  function ResolveGroup(d: Defaults, kw: Kwargs, prefix: string): (r: Result<Kwargs, Error>)
    ensures r.Ok? ==> r.value.Keys == {prefix + "storage_account", prefix + "container", prefix + "file_path"}
    ensures r.Err? ==> Truthy(Get(kw, prefix + "path"))
  {
    if Truthy(Get(kw, prefix + "path")) then FromPath(d, kw, prefix)
    else Ok(FromKeywords(d, kw, prefix))
  }

  /**
   * `arguments_decorator`: the keywords the wrapped method is called with, which
   * are exactly `storage_account`, `container` and `file_path`, or the exception.
   */
  function ArgumentsDecorator(d: Defaults, kw: Kwargs): (r: Result<Kwargs, Error>)
    ensures r.Ok? ==> r.value.Keys == {"storage_account", "container", "file_path"}
    ensures r.Err? ==> Truthy(Get(kw, "path"))
  {
    assert "" + "path" == "path" && "" + "storage_account" == "storage_account";
    assert "" + "container" == "container" && "" + "file_path" == "file_path";
    ResolveGroup(d, kw, "")
  }

  /** The keys of the call `multi_arguments_decorator` makes. */
  function MultiKeys(): set<string> {
    {"source_storage_account", "source_container", "source_file_path",
     "dest_storage_account", "dest_container", "dest_file_path"}
  }

  /**
   * The `dest_` group of `multi_arguments_decorator`: parsed and checked as a
   * `source_` group when `dest_path` is given, otherwise the three keywords as
   * given, with no instance fallback and no check.
   */
  function DestGroup(d: Defaults, kw: Kwargs): (r: Result<Kwargs, Error>)
    ensures r.Ok? ==> r.value.Keys == {"dest_storage_account", "dest_container", "dest_file_path"}
    ensures Truthy(Get(kw, "dest_path")) ==> r == ResolveGroup(d, kw, "dest_")
    ensures r.Err? ==> Truthy(Get(kw, "dest_path"))
  {
    assert "dest_" + "path" == "dest_path";
    assert "dest_" + "storage_account" == "dest_storage_account";
    assert "dest_" + "container" == "dest_container";
    assert "dest_" + "file_path" == "dest_file_path";
    if Truthy(Get(kw, "dest_path")) then FromPath(d, kw, "dest_")
    else Ok(Located("dest_", Get(kw, "dest_storage_account"), Get(kw, "dest_container"), Get(kw, "dest_file_path")))
  }

  /**
   * `multi_arguments_decorator`: the `source_` group is resolved like the single
   * decorator's, then the `dest_` group; source is resolved first, so its error
   * wins. The call gets the union of both groups.
   */
  function MultiArgumentsDecorator(d: Defaults, kw: Kwargs): (r: Result<Kwargs, Error>)
    ensures r.Ok? ==> r.value.Keys == MultiKeys()
  {
    match ResolveGroup(d, kw, "source_")
    case Err(e) => Err(e)
    case Ok(source) =>
      match DestGroup(d, kw)
      case Err(e) => Err(e)
      case Ok(destParams) =>
        UnionKeys(source, destParams);
        Ok(source + destParams)
  }

  /** A resolved `source_` group and a `dest_` group together carry exactly the six keys. */
  lemma UnionKeys(source: Kwargs, dest: Kwargs)
    requires source.Keys == {"source_" + "storage_account", "source_" + "container", "source_" + "file_path"}
    requires dest.Keys == {"dest_storage_account", "dest_container", "dest_file_path"}
    ensures (source + dest).Keys == MultiKeys()
  {
    assert "source_" + "storage_account" == "source_storage_account";
    assert "source_" + "container" == "source_container";
    assert "source_" + "file_path" == "source_file_path";
  }

  /** The single decorator is the group without prefix. */
  lemma SingleIsUnprefixedGroup(d: Defaults, kw: Kwargs)
    ensures ArgumentsDecorator(d, kw) == ResolveGroup(d, kw, "")
  {
  }

  /** The outcome of the multi decorator in terms of its two groups. */
  lemma MultiOutcome(d: Defaults, kw: Kwargs)
    ensures ResolveGroup(d, kw, "source_").Err? ==> MultiArgumentsDecorator(d, kw) == Err(ResolveGroup(d, kw, "source_").error)
    ensures ResolveGroup(d, kw, "source_").Ok? && DestGroup(d, kw).Err? ==> MultiArgumentsDecorator(d, kw) == Err(DestGroup(d, kw).error)
    ensures ResolveGroup(d, kw, "source_").Ok? && DestGroup(d, kw).Ok? ==>
      MultiArgumentsDecorator(d, kw) == Ok(ResolveGroup(d, kw, "source_").value + DestGroup(d, kw).value)
  {
  }

  /** Reading a key of a union: the right operand wins on its own keys, the left one elsewhere. */
  lemma UnionGet(left: Kwargs, right: Kwargs, key: string)
    ensures key in right ==> Get(left + right, key) == Get(right, key)
    ensures key !in right ==> Get(left + right, key) == Get(left, key)
  {
  }

  // ---------------------------------------------------------------------
  // Properties of the single decorator

  /** The decorator raises exactly when a path is given and either it does not parse or it yields no account and no keyword account was passed. */
  lemma DecoratorErrorsExactly(d: Defaults, kw: Kwargs)
    ensures ArgumentsDecorator(d, kw).Err? <==>
      Truthy(Get(kw, "path")) &&
      (ParseAzurePath(d, Get(kw, "path").value).Err? ||
       (!Truthy(ParseAzurePath(d, Get(kw, "path").value).value.storageAccount) && Get(kw, "storage_account").None?))
  {
    assert "" + "path" == "path" && "" + "storage_account" == "storage_account";
  }

  /** A blob URL supplies its own account, container and file path; the `storage_account` keyword is ignored. */
  lemma BlobUrlOverridesKeywords(d: Defaults, kw: Kwargs, a: string, c: string, f: string)
    requires a != "" && '\n' !in a && '/' !in c && !OccursIn(c + "/" + f, BlobHost)
    requires Get(kw, "path") == Some(BlobStorageUrl(Some(a)) + c + "/" + f)
    ensures ArgumentsDecorator(d, kw) == Ok(Located("", Some(a), Some(c), Some(f)))
  {
    assert "" + "path" == "path";
    BlobUrlParses(d, a, c, f);
  }

  /**
   * An `azure://` path takes its account from the instance when that one is
   * truthy, otherwise from the keyword; only a keyword that is `None` raises,
   * so an empty account keyword is accepted.
   */
  lemma ShortFormAccount(d: Defaults, kw: Kwargs, c: string, f: string)
    requires '/' !in c && !OccursIn(c + "/" + f, AzureScheme)
    requires Get(kw, "path") == Some(AzureScheme + c + "/" + f)
    ensures Truthy(d.storageAccount) ==>
      ArgumentsDecorator(d, kw) == Ok(Located("", d.storageAccount, Some(c), Some(f)))
    ensures !Truthy(d.storageAccount) && Get(kw, "storage_account").Some? ==>
      ArgumentsDecorator(d, kw) == Ok(Located("", Get(kw, "storage_account"), Some(c), Some(f)))
    ensures !Truthy(d.storageAccount) && Get(kw, "storage_account").None? ==>
      ArgumentsDecorator(d, kw) == Err(MissingStorageAccount)
  {
    assert "" + "path" == "path" && "" + "storage_account" == "storage_account";
    assert AzureScheme + c + "/" + f != "";
    ShortFormParses(d, c, f);
  }

  /** An empty account keyword with an `azure://` path and no instance account goes through with `""`. */
  lemma EmptyAccountKeywordAccepted(c: string, f: string)
    requires '/' !in c && !OccursIn(c + "/" + f, AzureScheme)
    ensures ArgumentsDecorator(Defaults(None, None),
        map["path" := Some(AzureScheme + c + "/" + f), "storage_account" := Some("")])
      == Ok(Located("", Some(""), Some(c), Some(f)))
  {
    var kw := map["path" := Some(AzureScheme + c + "/" + f), "storage_account" := Some("")];
    assert Get(kw, "path") == Some(AzureScheme + c + "/" + f);
    assert Get(kw, "storage_account") == Some("");
    ShortFormAccount(Defaults(None, None), kw, c, f);
  }

  /**
   * A path that is neither a blob URL nor of `azure://` form keeps the instance
   * container and becomes the file path as it is; the account is the instance's
   * when truthy, otherwise the keyword, and only a `None` keyword raises.
   */
  lemma OpaquePathResolution(d: Defaults, kw: Kwargs, path: string)
    requires path != "" && !StartsWith(path, HttpsScheme) && !StartsWith(path, AzureScheme)
    requires Get(kw, "path") == Some(path)
    ensures Truthy(d.storageAccount) ==>
      ArgumentsDecorator(d, kw) == Ok(Located("", d.storageAccount, d.container, Some(path)))
    ensures !Truthy(d.storageAccount) && Get(kw, "storage_account").Some? ==>
      ArgumentsDecorator(d, kw) == Ok(Located("", Get(kw, "storage_account"), d.container, Some(path)))
    ensures !Truthy(d.storageAccount) && Get(kw, "storage_account").None? ==>
      ArgumentsDecorator(d, kw) == Err(MissingStorageAccount)
  {
    assert "" + "path" == "path" && "" + "storage_account" == "storage_account";
    OpaquePathUnchanged(d, path);
  }

  /**
   * Without a path nothing can fail; a truthy keyword wins over the instance
   * field, and the instance field is used otherwise, so a truthy instance value
   * is never replaced by a falsy one; `file_path` is the keyword as given.
   */
  lemma PathlessResolution(d: Defaults, kw: Kwargs)
    requires !Truthy(Get(kw, "path"))
    ensures ArgumentsDecorator(d, kw).Ok?
    ensures var m := ArgumentsDecorator(d, kw).value;
      (Truthy(Get(kw, "storage_account")) ==> Get(m, "storage_account") == Get(kw, "storage_account")) &&
      (!Truthy(Get(kw, "storage_account")) ==> Get(m, "storage_account") == d.storageAccount) &&
      (Truthy(Get(kw, "container")) ==> Get(m, "container") == Get(kw, "container")) &&
      (!Truthy(Get(kw, "container")) ==> Get(m, "container") == d.container) &&
      Get(m, "file_path") == Get(kw, "file_path") &&
      (Truthy(d.storageAccount) ==> Truthy(Get(m, "storage_account")))
  {
    assert "" + "path" == "path" && "" + "storage_account" == "storage_account";
    assert "" + "container" == "container" && "" + "file_path" == "file_path";
  }

  /** Only the three location keywords reach the wrapped method: `path` and any other keyword of the call are dropped. */
  lemma OnlyLocationForwarded(d: Defaults, kw: Kwargs, other: string)
    requires other !in {"storage_account", "container", "file_path"}
    requires ArgumentsDecorator(d, kw).Ok?
    ensures other !in ArgumentsDecorator(d, kw).value
    ensures Get(ArgumentsDecorator(d, kw).value, "path").None?
  {
  }

  // ---------------------------------------------------------------------
  // Properties of the multi decorator

  /** The four keywords of a group agree between two calls. */
  predicate SameGroup(kw: Kwargs, prefix: string, kw': Kwargs, prefix': string) {
    Get(kw, prefix + "path") == Get(kw', prefix' + "path") &&
    Get(kw, prefix + "storage_account") == Get(kw', prefix' + "storage_account") &&
    Get(kw, prefix + "container") == Get(kw', prefix' + "container") &&
    Get(kw, prefix + "file_path") == Get(kw', prefix' + "file_path")
  }

  /** The three resolved values of a group agree between two results. */
  predicate SameResolved(m: Kwargs, prefix: string, m': Kwargs, prefix': string) {
    Get(m, prefix + "storage_account") == Get(m', prefix' + "storage_account") &&
    Get(m, prefix + "container") == Get(m', prefix' + "container") &&
    Get(m, prefix + "file_path") == Get(m', prefix' + "file_path")
  }

  /** A group is resolved by its four keywords alone, whatever its prefix. */
  lemma {:induction false} GroupDependsOnlyOnItsKeywords(d: Defaults, kw: Kwargs, prefix: string, kw': Kwargs, prefix': string)
    requires SameGroup(kw, prefix, kw', prefix')
    ensures ResolveGroup(d, kw, prefix).Err? <==> ResolveGroup(d, kw', prefix').Err?
    ensures ResolveGroup(d, kw, prefix).Err? ==> ResolveGroup(d, kw, prefix) == ResolveGroup(d, kw', prefix')
    ensures ResolveGroup(d, kw, prefix).Ok? ==>
      SameResolved(ResolveGroup(d, kw, prefix).value, prefix, ResolveGroup(d, kw', prefix').value, prefix')
  {
  }

  /** A source error is the multi decorator's error, raised before dest is looked at, and it is the error the single decorator raises on the same four keywords. */
  lemma SourceErrorFirst(d: Defaults, kw: Kwargs, single: Kwargs)
    requires SameGroup(kw, "source_", single, "")
    requires ArgumentsDecorator(d, single).Err?
    ensures MultiArgumentsDecorator(d, kw) == ArgumentsDecorator(d, single)
  {
    GroupDependsOnlyOnItsKeywords(d, kw, "source_", single, "");
    SingleIsUnprefixedGroup(d, single);
    MultiOutcome(d, kw);
  }

  /** On success the `source_` values are those the single decorator resolves from the same four keywords without prefix. */
  lemma SourceResolvedLikeSingle(d: Defaults, kw: Kwargs, single: Kwargs)
    requires SameGroup(kw, "source_", single, "")
    requires MultiArgumentsDecorator(d, kw).Ok?
    ensures ArgumentsDecorator(d, single).Ok?
    ensures SameResolved(MultiArgumentsDecorator(d, kw).value, "source_", ArgumentsDecorator(d, single).value, "")
  {
    GroupDependsOnlyOnItsKeywords(d, kw, "source_", single, "");
    SingleIsUnprefixedGroup(d, single);
    MultiOutcome(d, kw);
    var source := ResolveGroup(d, kw, "source_").value;
    var dest := DestGroup(d, kw).value;
    var m := MultiArgumentsDecorator(d, kw).value;
    assert m == source + dest;
    assert SameResolved(source, "source_", ArgumentsDecorator(d, single).value, "");
    SourceKeysSurviveUnion(source, dest);
  }

  /** Dest keys never hide the source values in the union. */
  lemma SourceKeysSurviveUnion(source: Kwargs, dest: Kwargs)
    requires dest.Keys == {"dest_storage_account", "dest_container", "dest_file_path"}
    ensures SameResolved(source + dest, "source_", source, "source_")
  {
    var k1, k2, k3 := "source_" + "storage_account", "source_" + "container", "source_" + "file_path";
    assert k1 == "source_storage_account" && k2 == "source_container" && k3 == "source_file_path";
    UnionGet(source, dest, k1);
    UnionGet(source, dest, k2);
    UnionGet(source, dest, k3);
  }

  /** Without `dest_path` the dest keywords are forwarded as given: no instance fallback and no check, so they may be `None`. */
  lemma DestVerbatimWithoutPath(d: Defaults, kw: Kwargs)
    requires !Truthy(Get(kw, "dest_path"))
    requires ResolveGroup(d, kw, "source_").Ok?
    ensures MultiArgumentsDecorator(d, kw).Ok?
    ensures var m := MultiArgumentsDecorator(d, kw).value;
      Get(m, "dest_storage_account") == Get(kw, "dest_storage_account") &&
      Get(m, "dest_container") == Get(kw, "dest_container") &&
      Get(m, "dest_file_path") == Get(kw, "dest_file_path")
  {
    MultiOutcome(d, kw);
    var source := ResolveGroup(d, kw, "source_").value;
    var dest := DestGroup(d, kw).value;
    assert "dest_" + "storage_account" == "dest_storage_account";
    assert "dest_" + "container" == "dest_container";
    assert "dest_" + "file_path" == "dest_file_path";
    UnionGet(source, dest, "dest_storage_account");
    UnionGet(source, dest, "dest_container");
    UnionGet(source, dest, "dest_file_path");
  }

  /** With `dest_path` the dest group is parsed and checked as the single decorator does with `path`. */
  lemma DestPathResolvedLikeSingle(d: Defaults, kw: Kwargs, single: Kwargs)
    requires Truthy(Get(kw, "dest_path"))
    requires ResolveGroup(d, kw, "source_").Ok?
    requires SameGroup(kw, "dest_", single, "")
    ensures MultiArgumentsDecorator(d, kw).Err? <==> ArgumentsDecorator(d, single).Err?
    ensures MultiArgumentsDecorator(d, kw).Err? ==> MultiArgumentsDecorator(d, kw) == ArgumentsDecorator(d, single)
    ensures MultiArgumentsDecorator(d, kw).Ok? ==>
      SameResolved(MultiArgumentsDecorator(d, kw).value, "dest_", ArgumentsDecorator(d, single).value, "")
  {
    GroupDependsOnlyOnItsKeywords(d, kw, "dest_", single, "");
    SingleIsUnprefixedGroup(d, single);
    MultiOutcome(d, kw);
    var source := ResolveGroup(d, kw, "source_").value;
    var dest := DestGroup(d, kw);
    assert dest == ResolveGroup(d, kw, "dest_");
    if dest.Ok? {
      var k1, k2, k3 := "dest_" + "storage_account", "dest_" + "container", "dest_" + "file_path";
      assert k1 in dest.value && k2 in dest.value && k3 in dest.value;
      UnionGet(source, dest.value, k1);
      UnionGet(source, dest.value, k2);
      UnionGet(source, dest.value, k3);
      assert SameResolved(source + dest.value, "dest_", dest.value, "dest_");
    }
  }
}
