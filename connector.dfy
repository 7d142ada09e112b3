/**
 * connector.py: the state of a `Connector` (its default account and container
 * and the clients `__init__` creates for them) and the rules by which
 * `get_blob_service_client` and `get_container_client` either hand back those
 * cached clients or make new ones after checking the container is listed.
 * Clients are handles known by their account URL (and container name); what
 * the storage service lists is a function from account URL to container names.
 */
module BlobConnector {
  import opened Wrappers
  import opened PyText
  import opened Paths
  import opened ArgsHandler

  /** A `BlobServiceClient` handle, known by the account URL it was built for. */
  class BlobServiceClient {
    const accountUrl: string

    constructor (accountUrl: string)
      ensures this.accountUrl == accountUrl
    {
      this.accountUrl := accountUrl;
    }
  }

  /** A `ContainerClient` handle, known by its account URL and container name. */
  class ContainerClient {
    const accountUrl: string
    const name: string

    constructor (accountUrl: string, name: string)
      ensures this.accountUrl == accountUrl && this.name == name
    {
      this.accountUrl := accountUrl;
      this.name := name;
    }
  }

  /** The names `list_containers` yields on the client for an account URL. */
  type Listing = string -> seq<string>

  // ---------------------------------------------------------------------
  // get_blob_storage_url

  /** `get_blob_storage_url` behind its decorator: the URL of the account the call resolves to. */
  function GetBlobStorageUrl(d: Defaults, kw: Kwargs): (r: Result<string, Error>)
    ensures r.Err? ==> Truthy(Get(kw, "path"))
  {
    match ArgumentsDecorator(d, kw)
    case Err(e) => Err(e)
    case Ok(m) => Ok(BlobStorageUrl(Get(m, "storage_account")))
  }

  /** For a blob URL the account in the URL is used, whatever else is passed. */
  lemma BlobStorageUrlOfBlobPath(d: Defaults, kw: Kwargs, a: string, c: string, f: string)
    requires a != "" && '\n' !in a && '/' !in c && !OccursIn(c + "/" + f, BlobHost)
    requires Get(kw, "path") == Some(BlobStorageUrl(Some(a)) + c + "/" + f)
    ensures GetBlobStorageUrl(d, kw) == Ok(HttpsScheme + a + BlobHost + "/")
  {
    BlobUrlOverridesKeywords(d, kw, a, c, f);
    assert "" + "storage_account" == "storage_account";
  }

  /** For an `azure://` path the instance account is used when truthy, else the keyword account. */
  lemma BlobStorageUrlOfShortForm(d: Defaults, kw: Kwargs, c: string, f: string)
    requires '/' !in c && !OccursIn(c + "/" + f, AzureScheme)
    requires Get(kw, "path") == Some(AzureScheme + c + "/" + f)
    ensures Truthy(d.storageAccount) ==> GetBlobStorageUrl(d, kw) == Ok(BlobStorageUrl(d.storageAccount))
    ensures !Truthy(d.storageAccount) && Get(kw, "storage_account").Some? ==>
      GetBlobStorageUrl(d, kw) == Ok(BlobStorageUrl(Get(kw, "storage_account")))
  {
    ShortFormAccount(d, kw, c, f);
    assert "" + "storage_account" == "storage_account";
  }

  /** Without a path the URL is that of the keyword account when truthy, else of the instance account, `None` included. */
  lemma BlobStorageUrlWithoutPath(d: Defaults, kw: Kwargs)
    requires !Truthy(Get(kw, "path"))
    ensures Truthy(Get(kw, "storage_account")) ==> GetBlobStorageUrl(d, kw) == Ok(BlobStorageUrl(Get(kw, "storage_account")))
    ensures !Truthy(Get(kw, "storage_account")) ==> GetBlobStorageUrl(d, kw) == Ok(BlobStorageUrl(d.storageAccount))
  {
    PathlessResolution(d, kw);
  }

  /**
   * The account an internal call such as `self.get_blob_storage_url(storage_account=a)`
   * resolves to: the decorator runs again on that one keyword, so a falsy `a`
   * falls back to the instance account.
   */
  function Reresolve(d: Defaults, a: Option<string>): (r: Option<string>)
    ensures ArgumentsDecorator(d, map["storage_account" := a]) == Ok(Located("", r, d.container, None))
  {
    var kw := map["storage_account" := a];
    assert "" + "path" == "path" && "" + "storage_account" == "storage_account";
    assert "" + "container" == "container" && "" + "file_path" == "file_path";
    assert Get(kw, "path") == None && Get(kw, "container") == None && Get(kw, "file_path") == None;
    if Truthy(a) then a else d.storageAccount
  }

  // ---------------------------------------------------------------------
  // The decisions of get_blob_service_client and get_container_client

  /** What `get_blob_service_client` does once its arguments are resolved. */
  datatype ServicePlan = ReuseService | NewService(accountUrl: string)

  /** `get_blob_service_client` on a resolved account: the instance client when it equals the instance account, otherwise a new client. */
  function ServiceChoice(d: Defaults, a: Option<string>): (r: ServicePlan)
    ensures r == ReuseService <==> a == d.storageAccount
    ensures r.NewService? && Truthy(a) ==> r.accountUrl == BlobStorageUrl(a)
    ensures r.NewService? && !Truthy(a) ==> r.accountUrl == BlobStorageUrl(d.storageAccount)
  {
    if a == d.storageAccount then ReuseService
    else NewService(BlobStorageUrl(Reresolve(d, a)))
  }

  /** `get_blob_service_client` behind its decorator. */
  function PlanServiceClient(d: Defaults, kw: Kwargs): (r: Result<ServicePlan, Error>)
    ensures r.Err? <==> ArgumentsDecorator(d, kw).Err?
  {
    match ArgumentsDecorator(d, kw)
    case Err(e) => Err(e)
    case Ok(m) => Ok(ServiceChoice(d, Get(m, "storage_account")))
  }

  /** The internal `get_blob_storage_url(storage_account=a)` call gives the URL of the re-resolved account. */
  lemma InternalUrl(d: Defaults, a: Option<string>)
    ensures GetBlobStorageUrl(d, map["storage_account" := a]) == Ok(BlobStorageUrl(Reresolve(d, a)))
  {
    var r := Reresolve(d, a);
    assert "" + "storage_account" == "storage_account";
    assert Get(Located("", r, d.container, None), "storage_account") == r;
  }

  /** The internal `get_blob_service_client(storage_account=a)` call plans on the re-resolved account. */
  lemma InternalServicePlan(d: Defaults, a: Option<string>)
    ensures PlanServiceClient(d, map["storage_account" := a]) == Ok(ServiceChoice(d, Reresolve(d, a)))
  {
    var r := Reresolve(d, a);
    assert "" + "storage_account" == "storage_account";
    assert Get(Located("", r, d.container, None), "storage_account") == r;
  }

  /** What `get_container_client` does once its arguments are resolved: hand back the instance client, or look the container up in the listing of a service client. */
  datatype ContainerPlan =
    | ReuseContainer
    | Lookup(service: ServicePlan, storageAccount: Option<string>, container: Option<string>)

  /** `get_container_client` behind its decorator; its lookup goes through `get_blob_service_client(storage_account=a)`, decorated again. */
  function PlanContainerClient(d: Defaults, kw: Kwargs): (r: Result<ContainerPlan, Error>)
    ensures r.Err? <==> ArgumentsDecorator(d, kw).Err?
  {
    match ArgumentsDecorator(d, kw)
    case Err(e) => Err(e)
    case Ok(m) =>
      var a := Get(m, "storage_account");
      var c := Get(m, "container");
      if a == d.storageAccount && c == d.container then Ok(ReuseContainer)
      else Ok(Lookup(ServiceChoice(d, Reresolve(d, a)), a, c))
  }

  /** The decorator resolves an account to `None` only by keeping an instance account that is `None`: a path always yields an account or raises. */
  lemma ResolvedNoneOnlyFromInstance(d: Defaults, kw: Kwargs)
    requires ArgumentsDecorator(d, kw).Ok?
    requires Get(ArgumentsDecorator(d, kw).value, "storage_account").None?
    ensures d.storageAccount.None? && !Truthy(Get(kw, "path"))
  {
    assert "" + "path" == "path" && "" + "storage_account" == "storage_account";
    if !Truthy(Get(kw, "path")) {
      PathlessResolution(d, kw);
    }
  }

  /**
   * The service client is the instance's exactly when the resolved account
   * equals the instance account; a new one is for the resolved account when
   * that is truthy, and otherwise, the resolved account being `""`, for the
   * instance account.
   */
  lemma ServiceClientChoice(d: Defaults, kw: Kwargs)
    requires ArgumentsDecorator(d, kw).Ok?
    ensures var a := Get(ArgumentsDecorator(d, kw).value, "storage_account");
      (a == d.storageAccount <==> PlanServiceClient(d, kw) == Ok(ReuseService)) &&
      (Truthy(a) && a != d.storageAccount ==> PlanServiceClient(d, kw) == Ok(NewService(BlobStorageUrl(a)))) &&
      (!Truthy(a) && a != d.storageAccount ==>
        a == Some("") && PlanServiceClient(d, kw) == Ok(NewService(BlobStorageUrl(d.storageAccount))))
  {
    var a := Get(ArgumentsDecorator(d, kw).value, "storage_account");
    if a.None? {
      ResolvedNoneOnlyFromInstance(d, kw);
    }
  }

  /** Called with no arguments both methods hand back the instance clients. */
  lemma NoArgumentsReuseInstanceClients(d: Defaults)
    ensures PlanServiceClient(d, map[]) == Ok(ReuseService)
    ensures PlanContainerClient(d, map[]) == Ok(ReuseContainer)
  {
    PathlessResolution(d, map[]);
  }

  /** The container client is the instance's exactly when both resolved names equal the instance's. */
  lemma ContainerReuseExactly(d: Defaults, kw: Kwargs)
    requires ArgumentsDecorator(d, kw).Ok?
    ensures var m := ArgumentsDecorator(d, kw).value;
      PlanContainerClient(d, kw) == Ok(ReuseContainer) <==>
        Get(m, "storage_account") == d.storageAccount && Get(m, "container") == d.container
  {
  }

  /**
   * A container lookup makes a new service client only for a truthy account
   * that differs from the instance's, and then for that account; otherwise it
   * uses the instance's service client.
   */
  lemma ContainerLookupService(d: Defaults, kw: Kwargs)
    requires PlanContainerClient(d, kw).Ok? && PlanContainerClient(d, kw).value.Lookup?
    ensures var p := PlanContainerClient(d, kw).value;
      (Truthy(p.storageAccount) && p.storageAccount != d.storageAccount ==>
        p.service == NewService(BlobStorageUrl(p.storageAccount))) &&
      (!(Truthy(p.storageAccount) && p.storageAccount != d.storageAccount) ==> p.service == ReuseService)
  {
  }

  /** The membership test of `__init__` and `get_container_client`: a container must be among the listed names; `None` never is. */
  function CheckContainer(names: seq<string>, c: Option<string>, a: Option<string>): (r: Result<string, Error>)
    ensures r.Ok? <==> c.Some? && c.value in names
    ensures r.Ok? ==> r.value == c.value
    ensures r.Err? ==> r.error == ContainerNotInAccount(c, a)
  {
    if c.Some? && c.value in names then Ok(c.value) else Err(ContainerNotInAccount(c, a))
  }

  // ---------------------------------------------------------------------
  // __init__

  /** The instance account and container `__init__` settles on: the arguments, overwritten by the parse of a truthy path. */
  function InitialDefaults(path: Option<string>, storageAccount: Option<string>, container: Option<string>): (r: Result<Defaults, Error>)
    ensures r.Err? ==> Truthy(path)
  {
    if Truthy(path) then
      match ParseAzurePath(Defaults(storageAccount, container), path.value)
      case Err(e) => Err(e)
      case Ok(parsed) => Ok(Defaults(parsed.storageAccount, parsed.container))
    else Ok(Defaults(storageAccount, container))
  }

  /** `__init__`'s outcome: the settled account and container, or the exception it raises. */
  function InitOutcome(path: Option<string>, storageAccount: Option<string>, container: Option<string>, listing: Listing): (r: Result<Defaults, Error>)
    ensures r.Ok? ==> InitialDefaults(path, storageAccount, container) == r
  {
    match InitialDefaults(path, storageAccount, container)
    case Err(e) => Err(e)
    case Ok(d) =>
      if Truthy(d.storageAccount) && Truthy(d.container) then
        var url := BlobStorageUrl(Reresolve(d, d.storageAccount));
        match CheckContainer(listing(url), d.container, d.storageAccount)
        case Err(e) => Err(e)
        case Ok(_) => Ok(d)
      else Ok(d)
  }

  /** With a blob URL the account and container come from the URL and the arguments are overwritten. */
  lemma InitFromBlobUrl(storageAccount: Option<string>, container: Option<string>, a: string, c: string, f: string)
    requires '\n' !in a && '/' !in c && !OccursIn(c + "/" + f, BlobHost)
    ensures InitialDefaults(Some(BlobStorageUrl(Some(a)) + c + "/" + f), storageAccount, container) == Ok(Defaults(Some(a), Some(c)))
  {
    BlobUrlParses(Defaults(storageAccount, container), a, c, f);
  }

  /** With an `azure://` path the account argument is kept, possibly `None`, and the container comes from the path. */
  lemma InitFromShortForm(storageAccount: Option<string>, container: Option<string>, c: string, f: string)
    requires '/' !in c && !OccursIn(c + "/" + f, AzureScheme)
    ensures InitialDefaults(Some(AzureScheme + c + "/" + f), storageAccount, container) == Ok(Defaults(storageAccount, Some(c)))
  {
    assert AzureScheme + c + "/" + f != "";
    ShortFormParses(Defaults(storageAccount, container), c, f);
  }

  /** Without a path, or with one of neither form, the arguments are kept as given. */
  lemma InitKeepsArguments(path: Option<string>, storageAccount: Option<string>, container: Option<string>)
    requires Truthy(path) ==> !StartsWith(path.value, HttpsScheme) && !StartsWith(path.value, AzureScheme)
    ensures InitialDefaults(path, storageAccount, container) == Ok(Defaults(storageAccount, container))
  {
    if Truthy(path) {
      OpaquePathUnchanged(Defaults(storageAccount, container), path.value);
    }
  }

  /** An `https://` path without the blob host makes `__init__` fail like the parse does. */
  lemma InitRejectsForeignHttps(path: string, storageAccount: Option<string>, container: Option<string>)
    requires StartsWith(path, HttpsScheme) && !OccursIn(path, BlobHost)
    ensures InitialDefaults(Some(path), storageAccount, container) == Err(IndexOutOfRange)
  {
    assert path != "" by { assert |HttpsScheme| > 0; }
    HttpsWithoutHostFails(Defaults(storageAccount, container), path);
  }

  /**
   * `__init__` raises exactly when the parse fails, or when both settled names
   * are truthy and the container is not listed for the account's URL; the
   * listing is consulted only in that case.
   */
  lemma InitFailsExactly(path: Option<string>, storageAccount: Option<string>, container: Option<string>, listing: Listing)
    ensures InitOutcome(path, storageAccount, container, listing).Err? <==>
      InitialDefaults(path, storageAccount, container).Err? ||
      (var d := InitialDefaults(path, storageAccount, container).value;
       Truthy(d.storageAccount) && Truthy(d.container) &&
       d.container.value !in listing(BlobStorageUrl(d.storageAccount)))
    ensures InitialDefaults(path, storageAccount, container).Ok? ==>
      var d := InitialDefaults(path, storageAccount, container).value;
      !(Truthy(d.storageAccount) && Truthy(d.container)) ==> InitOutcome(path, storageAccount, container, listing) == Ok(d)
  {
  }

  // ---------------------------------------------------------------------
  // The connector object

  class Connector {
    var storageAccount: Option<string>
    var container: Option<string>
    /** `blob_service_client`; `None` while the attribute has never been assigned. */
    var serviceClient: Option<BlobServiceClient>
    /** `container_client`; `None` while the attribute has never been assigned. */
    var containerClient: Option<ContainerClient>

    /** The instance fields the decorators and `parse_azure_path` fall back on. */
    function Fallbacks(): (d: Defaults)
      reads this
      ensures d.storageAccount == storageAccount && d.container == container
    {
      Defaults(storageAccount, container)
    }

    /**
     * What `__init__` leaves behind: a service client exactly when the account
     * is truthy, for that account's URL, and a container client exactly when
     * the container is truthy as well, for that account and container.
     */
    predicate Valid()
      reads this
    {
      (serviceClient.Some? <==> Truthy(storageAccount)) &&
      (serviceClient.Some? ==> serviceClient.value.accountUrl == BlobStorageUrl(storageAccount)) &&
      (containerClient.Some? <==> Truthy(storageAccount) && Truthy(container)) &&
      (containerClient.Some? ==>
        containerClient.value.accountUrl == BlobStorageUrl(storageAccount) &&
        containerClient.value.name == container.value)
    }

    /** The first two assignments of `__init__`: the arguments become the instance fields; no client exists yet. */
    constructor (storageAccount: Option<string>, container: Option<string>)
      ensures this.storageAccount == storageAccount && this.container == container
      ensures serviceClient.None? && containerClient.None?
    {
      this.storageAccount := storageAccount;
      this.container := container;
      serviceClient := None;
      containerClient := None;
    }

    /**
     * `get_blob_service_client`: the instance client when the resolved account
     * equals the instance account (an `AttributeError` when it was never made),
     * otherwise a new client for the URL `get_blob_storage_url` gives. While the
     * fields are as `__init__` left them, the client is for the resolved account
     * (for the instance account when that resolves to `""`).
     */
    method GetBlobServiceClient(kw: Kwargs) returns (r: Result<BlobServiceClient, Error>)
      ensures PlanServiceClient(Fallbacks(), kw).Err? ==> r == Err(PlanServiceClient(Fallbacks(), kw).error)
      ensures PlanServiceClient(Fallbacks(), kw) == Ok(ReuseService) ==>
        r == if serviceClient.Some? then Ok(serviceClient.value) else Err(MissingAttribute("blob_service_client"))
      ensures PlanServiceClient(Fallbacks(), kw).Ok? && PlanServiceClient(Fallbacks(), kw).value.NewService? ==>
        r.Ok? && fresh(r.value) && r.value.accountUrl == PlanServiceClient(Fallbacks(), kw).value.accountUrl
      ensures r.Ok? ==> ArgumentsDecorator(Fallbacks(), kw).Ok?
      ensures Valid() && r.Ok? ==>
        r.value.accountUrl == BlobStorageUrl(Reresolve(Fallbacks(), Get(ArgumentsDecorator(Fallbacks(), kw).value, "storage_account")))
    {
      var resolved := ArgumentsDecorator(Fallbacks(), kw);
      if resolved.Err? {
        return Err(resolved.error);
      }
      var a := Get(resolved.value, "storage_account");
      if a == storageAccount {
        if serviceClient.None? {
          return Err(MissingAttribute("blob_service_client"));
        }
        return Ok(serviceClient.value);
      }
      var url := GetBlobStorageUrl(Fallbacks(), map["storage_account" := a]);
      InternalUrl(Fallbacks(), a);
      var client := new BlobServiceClient(url.value);
      return Ok(client);
    }

    /**
     * `get_container_client`: the instance client when both resolved names
     * equal the instance's; otherwise the service client for the account is
     * asked for its listing and a new client is made when the container is
     * listed, a `ValueError` raised when it is not.
     */
    method GetContainerClient(kw: Kwargs, listing: Listing) returns (r: Result<ContainerClient, Error>)
      ensures PlanContainerClient(Fallbacks(), kw).Err? ==> r == Err(PlanContainerClient(Fallbacks(), kw).error)
      ensures PlanContainerClient(Fallbacks(), kw) == Ok(ReuseContainer) ==>
        r == if containerClient.Some? then Ok(containerClient.value) else Err(MissingAttribute("container_client"))
      ensures PlanContainerClient(Fallbacks(), kw).Ok? && PlanContainerClient(Fallbacks(), kw).value.Lookup? ==>
        var p := PlanContainerClient(Fallbacks(), kw).value;
        if p.service == ReuseService && serviceClient.None? then r == Err(MissingAttribute("blob_service_client"))
        else
          var url := if p.service.NewService? then p.service.accountUrl else serviceClient.value.accountUrl;
          (r.Ok? <==> p.container.Some? && p.container.value in listing(url)) &&
          (r.Ok? ==> fresh(r.value) && r.value.accountUrl == url && r.value.name == p.container.value) &&
          (r.Err? ==> r.error == ContainerNotInAccount(p.container, p.storageAccount))
    {
      var resolved := ArgumentsDecorator(Fallbacks(), kw);
      if resolved.Err? {
        return Err(resolved.error);
      }
      var a := Get(resolved.value, "storage_account");
      var c := Get(resolved.value, "container");
      if a == storageAccount && c == container {
        if containerClient.None? {
          return Err(MissingAttribute("container_client"));
        }
        return Ok(containerClient.value);
      }
      var service := GetBlobServiceClient(map["storage_account" := a]);
      InternalServicePlan(Fallbacks(), a);
      if service.Err? {
        return Err(service.error);
      }
      var names := listing(service.value.accountUrl);
      var checked := CheckContainer(names, c, a);
      if checked.Err? {
        return Err(checked.error);
      }
      var client := new ContainerClient(service.value.accountUrl, checked.value);
      return Ok(client);
    }
  }

  /**
   * `__init__` after its first two assignments: a truthy path overwrites the
   * account and container with its parse; a truthy account gets a service
   * client, and with a truthy container the container must be listed for it
   * and gets a container client.
   */
  method NewConnector(path: Option<string>, storageAccount: Option<string>, container: Option<string>, listing: Listing)
    returns (r: Result<Connector, Error>)
    ensures r.Err? <==> InitOutcome(path, storageAccount, container, listing).Err?
    ensures r.Err? ==> r.error == InitOutcome(path, storageAccount, container, listing).error
    ensures r.Ok? ==>
      fresh(r.value) && r.value.Valid() &&
      r.value.Fallbacks() == InitOutcome(path, storageAccount, container, listing).value
    ensures r.Ok? && r.value.containerClient.Some? ==>
      r.value.containerClient.value.name in listing(r.value.containerClient.value.accountUrl)
  {
    var connector := new Connector(storageAccount, container);
    if Truthy(path) {
      var parsed := ParseAzurePath(connector.Fallbacks(), path.value);
      if parsed.Err? {
        return Err(parsed.error);
      }
      connector.storageAccount := parsed.value.storageAccount;
      connector.container := parsed.value.container;
    }
    ghost var settled := connector.Fallbacks();
    assert InitialDefaults(path, storageAccount, container) == Ok(settled);
    if Truthy(connector.storageAccount) {
      var url := GetBlobStorageUrl(connector.Fallbacks(), map["storage_account" := connector.storageAccount]);
      InternalUrl(settled, settled.storageAccount);
      var service := new BlobServiceClient(url.value);
      connector.serviceClient := Some(service);
      if Truthy(connector.container) {
        var names := listing(service.accountUrl);
        var checked := CheckContainer(names, connector.container, connector.storageAccount);
        if checked.Err? {
          return Err(checked.error);
        }
        var client := new ContainerClient(service.accountUrl, checked.value);
        connector.containerClient := Some(client);
      }
    }
    return Ok(connector);
  }
}
