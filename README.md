# azure-tools connector: path and argument resolution, in Dafny

azure-tools wraps Azure Blob Storage behind a `Connector` object. Every
connector method accepts a blob location in three ways:

- a path, either `https://<account>.blob.core.windows.net/<container>/<file>` or `azure://<container>/<file>`;
- explicit `storage_account`, `container` and `file_path` keywords;
- the account and container the connector was built with.

This project models how those three are turned into one
(storage account, container, file path) triple. It also models the
client-caching rules of the connector, and the log filter that hides the
Azure SDK's token chatter.

Files:

- `wrappers.dfy`: the `Option` and `Result` types.
- `pytext.dfy`: the pieces of Python's string and regular-expression behaviour the code relies on:
  - truthiness of an optional string;
  - `startswith`;
  - `str.replace`, which replaces every occurrence, scanning from the left;
  - `split`/`pop(0)`/`join`;
  - the greedy `(.*)` group of `re.findall` and `re.match`, which never crosses a newline.
- `paths.dfy` (`connector.py`, pure part):
  - `parse_azure_path`, `is_azure_path` and the account URL format;
  - the round trip from a built URL back to its parts.
- `args_handler.dfy`: `arguments_decorator` and `multi_arguments_decorator`, each modelled as a function:
  - the input is a call's keywords (a map from keyword to optional string) and the instance's two fallback fields;
  - the output is the exact keywords the wrapped method receives, or the exception raised instead;
  - only calls made with keywords are modelled (see "Left out" for positional arguments).
- `connector.dfy`: the `Connector` class.
  - Its fields are the default account, the default container and the two cached clients.
  - `__init__` is modelled as its first assignments (the constructor) followed by `NewConnector`.
  - `get_blob_service_client` and `get_container_client` are modelled as methods. Each is proved against a pure function that states its decision (reuse the cached client, or create and check).
  - What the storage service lists is an input: a function from account URL to container names.
- `az_logging.dfy`: `QuietAzureTokenLogs`.

Where Python behaviour is subtle, the model follows the code:

- An empty string counts as absent wherever the code writes `x if x else y`.
- The "no storage account" error fires only on `None`, so an explicit `""` account is accepted.
- `get_blob_storage_url` and `get_blob_service_client` are decorated too. When `get_blob_service_client` and `get_container_client` call them internally, the resolution runs again, so a falsy account falls back to the instance's account (`Reresolve`).
- A client attribute that `__init__` never assigned raises `AttributeError` when it is returned (`MissingAttribute`).
- The `findall` group is greedy. It runs to the last `.blob.core.windows.net` on the first line of the path. The URL round trip (`Paths.BlobUrlParses`) is proved to hold when:
  - the account contains no newline;
  - the container contains no `/`;
  - the container and file path, joined by `/`, do not contain that host suffix.

  These conditions are sufficient, not necessary: a host suffix after a newline in the file path, for instance, does not break the round trip. Whether the account itself contains the suffix does not matter.
- `connector.py` applies the decorators as `@arguments_decorator()` and `@multi_arguments_decorator(local_support=True)`. `args_handler.py`, however, defines decorators that take the wrapped function directly and have no `local_support`. The model follows `args_handler.py`, and treats each connector method as running that resolution on its keywords first.

## Model

| member | source | states |
|---|---|---|
| PyText.ReplaceAll | connector.py:93 | `str.replace` leaves a string without the pattern unchanged |
| PyText.SplitOff | connector.py:94-96 | the container is the text before the first `/` and the file path the text after it, or `""` when there is no `/` |
| PyText.JoinSplit | connector.py:94-96 | `"/".join(s.split("/"))` gives `s` back, so inner `/` of the file path survive |
| PyText.Split | connector.py:94 | `split` always gives at least one part, and a string without the separator is its own single part |
| PyText.Join | connector.py:96 | the join starts with the first part, followed by the separator when there are two parts or more |
| PyText.SplitJoin | connector.py:94-96 | splitting the join of separator-free parts gives the parts back |
| PyText.SplitAtFirst | connector.py:94-95 | the first part of a split is the text before the first separator |
| PyText.GreedyCapture | connector.py:90-92 | the `(.*)` group ends at the last place the suffix matches on the line, and is absent exactly when the suffix matches nowhere |
| PyText.Line | connector.py:90-92 | `.` stops at the first newline: the line is the longest newline-free prefix |
| Paths.FindAccount | connector.py:90-92 | `findall(...)` is empty exactly when no start position matches; otherwise its first element is the group of the leftmost start position that matches |
| Paths.BlobStorageUrl | connector.py:74 | the URL is exactly `https://` + account + `.blob.core.windows.net/`, with `None` shown as `None` |
| Paths.ParseAzurePath | connector.py:76-110 | a path not starting with `https://` never raises and keeps the instance account; only `https://` paths can raise, and then with the index error |
| Paths.BlobUrlParses | connector.py:89-96 | the built URL followed by `c/f` parses back to account `a`, container `c`, file path `f` |
| Paths.ShortFormParses | connector.py:98-102 | `azure://c/f` parses to the instance account, container `c` and file path `f` |
| Paths.ShortFormAccountFromInstance | connector.py:85-102 | for `azure://` paths the account is always the instance's and the container and file path do not depend on the instance |
| Paths.OpaquePathUnchanged | connector.py:85-105 | a path of neither form is the file path, with account and container the instance fields |
| Paths.HttpsWithoutHostFails | connector.py:89-92 | an `https://` path without the blob host raises the index error |
| Paths.IsAzurePath | connector.py:112-124 | only paths starting with `https://` or `azure://` are recognised, and every `azure://` path is; its behaviour on URLs is stated by `BlobUrlIsAzurePath`, `LocalPathIsNotAzurePath` and `LooseDotsAcceptUnparsable` |
| Paths.ShortFormIsAzurePath | connector.py:120-124 | every `azure://` path is recognised |
| Paths.BlobUrlIsAzurePath | connector.py:120-124 | every `https://<a>.blob.core.windows.net...` path is recognised |
| Paths.LocalPathIsNotAzurePath | connector.py:120-124 | paths like `/home/...`, `./...`, `~/...` are not recognised |
| Paths.LooseDotsAcceptUnparsable | connector.py:121 | as written, `https://a.blob-core.windows.net/c` is recognised yet `parse_azure_path` raises on it |
| Paths.EscapedRecogniserParses | connector.py:121 | with the dots escaped, every recognised path parses without raising |
| Paths.EscapedRecogniserIsStricter | connector.py:121 | the corrected recogniser accepts nothing the original rejects |
| ArgsHandler.Located | args_handler.py:18-23 | the forwarded call carries exactly the three location keywords with the given values |
| ArgsHandler.FromPath | args_handler.py:5-23 | a resolved path gives exactly the three keys and never a `None` account |
| ArgsHandler.FromKeywords | args_handler.py:24-41 | without a path the group gives exactly its three keys; its values are stated by `PathlessResolution` |
| ArgsHandler.ResolveGroup | args_handler.py:5-41 | a resolved group has exactly its three keys; it can fail only when a path is given |
| ArgsHandler.ArgumentsDecorator | args_handler.py:1-43 | the wrapped method receives exactly `storage_account`, `container`, `file_path`; only a given path can make it raise |
| ArgsHandler.DecoratorErrorsExactly | args_handler.py:5-17 | it raises exactly when the path does not parse, or yields a falsy account while the keyword account is `None` |
| ArgsHandler.BlobUrlOverridesKeywords | args_handler.py:5-23 | a blob URL's account, container and file path override any keywords |
| ArgsHandler.ShortFormAccount | args_handler.py:8-17 | for `azure://` a truthy instance account wins, else the keyword account, and only a `None` keyword raises |
| ArgsHandler.EmptyAccountKeywordAccepted | args_handler.py:8-17 | an explicit `""` account does not raise and is forwarded as `""` |
| ArgsHandler.OpaquePathResolution | args_handler.py:7-17 | an opaque path without any account raises; otherwise it is the file path with the instance container |
| ArgsHandler.PathlessResolution | args_handler.py:24-41 | without a path nothing raises; a truthy keyword wins over the instance field, and `file_path` is the keyword alone |
| ArgsHandler.OnlyLocationForwarded | args_handler.py:18-41 | in a keyword call, `path` and every other keyword are dropped from the forwarded keywords |
| ArgsHandler.DestGroup | args_handler.py:84-110 | the dest group has exactly its three keys, is resolved like a source group when `dest_path` is given, and can fail only then |
| ArgsHandler.MultiArgumentsDecorator | args_handler.py:45-114 | the forwarded call has exactly the six `source_`/`dest_` keys |
| ArgsHandler.UnionKeys | args_handler.py:111 | the merged source and dest groups carry exactly the six keys |
| ArgsHandler.MultiOutcome | args_handler.py:48-112 | a source error wins; otherwise a dest error; otherwise the union of both groups |
| ArgsHandler.GroupDependsOnlyOnItsKeywords | args_handler.py:48-82 | a group's resolution depends on its four keywords alone, not on its prefix |
| ArgsHandler.SourceErrorFirst | args_handler.py:48-84 | a source error is raised before dest is looked at, and it is the error the single decorator raises on the same keywords |
| ArgsHandler.SourceResolvedLikeSingle | args_handler.py:48-82 | on success the source values are those the single decorator resolves from the same keywords |
| ArgsHandler.SourceKeysSurviveUnion | args_handler.py:111 | merging in the dest group never hides a source value |
| ArgsHandler.DestVerbatimWithoutPath | args_handler.py:102-110 | without `dest_path` the dest keywords pass as given, without fallback or check |
| ArgsHandler.DestPathResolvedLikeSingle | args_handler.py:84-101 | with `dest_path` the dest group is parsed and checked like the single decorator's path |
| BlobConnector.GetBlobStorageUrl | connector.py:56-74 | the decorated URL builder can fail only when a path is given |
| BlobConnector.BlobStorageUrlOfBlobPath | connector.py:56-74 | for a blob URL, the URL of the account in the path |
| BlobConnector.BlobStorageUrlOfShortForm | connector.py:56-74 | for `azure://`, the instance account's URL when truthy, else the keyword account's |
| BlobConnector.BlobStorageUrlWithoutPath | connector.py:56-74 | without a path, the truthy keyword account's URL, else the instance account's |
| BlobConnector.Reresolve | connector.py:146-177 | an internal call with one account keyword resolves it as the decorator does: a falsy account becomes the instance's |
| BlobConnector.ServiceChoice | connector.py:144-152 | the cached client exactly when the resolved account equals the instance's; otherwise a new client for a truthy account, or for the instance account when the resolved one is falsy |
| BlobConnector.InternalUrl | connector.py:146-149 | the internal `get_blob_storage_url(storage_account=a)` gives the URL of the re-resolved account |
| BlobConnector.InternalServicePlan | connector.py:177 | the internal `get_blob_service_client(storage_account=a)` decides on the re-resolved account |
| BlobConnector.PlanServiceClient | connector.py:126-152 | the decision of `get_blob_service_client` fails exactly when argument resolution fails |
| BlobConnector.ResolvedNoneOnlyFromInstance | args_handler.py:14-17 | an account resolves to `None` only without a path and with a `None` instance account |
| BlobConnector.ServiceClientChoice | connector.py:144-152 | the cached client is used exactly when the resolved account equals the instance's; otherwise a client for the resolved account, or for the instance's when the resolved account is `""` |
| BlobConnector.NoArgumentsReuseInstanceClients | connector.py:144-175 | called without arguments both methods hand back the instance clients |
| BlobConnector.PlanContainerClient | connector.py:154-184 | the decision of `get_container_client` fails exactly when argument resolution fails |
| BlobConnector.ContainerReuseExactly | connector.py:174-175 | the cached container client is used exactly when both resolved names equal the instance's |
| BlobConnector.ContainerLookupService | connector.py:176-177 | a lookup makes a new service client only for a truthy account other than the instance's |
| BlobConnector.CheckContainer | connector.py:45-54 | a container passes exactly when it is listed; `None` never is; the error names container and account |
| BlobConnector.InitialDefaults | connector.py:23-29 | only a given path can make `__init__`'s first step fail |
| BlobConnector.InitOutcome | connector.py:19-54 | a successful `__init__` keeps the account and container its first step settled on |
| BlobConnector.InitFromBlobUrl | connector.py:26-29 | a blob URL's account and container overwrite the arguments |
| BlobConnector.InitFromShortForm | connector.py:26-29 | an `azure://` path keeps the account argument and takes the container from the path |
| BlobConnector.InitKeepsArguments | connector.py:23-29 | without a path, or with an opaque one, the arguments are kept |
| BlobConnector.InitRejectsForeignHttps | connector.py:26-27 | an `https://` path without the blob host makes `__init__` raise |
| BlobConnector.InitFailsExactly | connector.py:35-54 | `__init__` raises exactly on a failed parse, or for a truthy account and container that is not listed |
| BlobConnector.Connector.constructor | connector.py:23-24 | the arguments become the fields; no client exists yet |
| BlobConnector.Connector.GetBlobServiceClient | connector.py:126-152 | follows `PlanServiceClient`: the cached client, `AttributeError` when never made, or a fresh client for the planned URL |
| BlobConnector.Connector.GetContainerClient | connector.py:154-184 | follows `PlanContainerClient`: the cached client, or a fresh client when the container is listed for the service client's URL, else `ValueError` |
| BlobConnector.NewConnector | connector.py:19-54 | fails exactly as `InitOutcome` says; otherwise a fresh connector whose clients match its fields and whose container client is for a listed container |
| AzLogging.IsFailedCredsWarning | aztools/logging.py:5-13 | a failed-credential warning is at level WARNING and never carries the success message; `FailedCredsWarningDropped` and `FailureKeptAtOtherLevels` state the rest |
| AzLogging.Filter | aztools/logging.py:15-18 | a failed-credential warning is dropped, and records at levels other than INFO and WARNING are kept; `FilterExactly` states the whole rule |
| AzLogging.FailureIsNotSuccessAny | aztools/logging.py:8-16 | none of the four failure messages is the success message |
| AzLogging.DistinctPrefixes | aztools/logging.py:8-16 | no message starts with two prefixes that differ in their first character |
| AzLogging.FailureIsNotSuccess | aztools/logging.py:8-16 | a failure message is never the success message |
| AzLogging.SuccessAlwaysKept | aztools/logging.py:16-17 | the success message is kept at every level |
| AzLogging.OtherInfoDropped | aztools/logging.py:18 | every other INFO record is dropped |
| AzLogging.FailedCredsWarningDropped | aztools/logging.py:5-18 | a WARNING with any of the four failure messages is dropped |
| AzLogging.OtherWarningKept | aztools/logging.py:18 | a WARNING with none of the four failure messages is kept |
| AzLogging.FailureKeptAtOtherLevels | aztools/logging.py:7-18 | failure messages count only at WARNING; other levels but INFO are kept |
| AzLogging.FilterExactly | aztools/logging.py:15-18 | a record is kept exactly when it is the success message, or neither INFO nor a failed-credential WARNING |
| AzLogging.ExampleRecords | aztools/logging.py:15-18 | INFO `message` dropped, WARNING `message` kept, the environment failure dropped, the success kept |

## Left out

- Azure SDK calls are not modelled: credentials, `BlobServiceClient` construction, `list_containers`, `list_blobs`, blob download and upload. Clients are handles that carry their account URL and container name, and a container listing is an input function.
- Filesystem I/O is not modelled: `list_blobs`, `blob_exists`, `download_folder` and `upload_folder` are SDK and filesystem loops around the resolution modelled here.
- `logging.basicConfig` in `__init__` and `init_loggers` are not modelled, because they change global logging configuration.
- Positional arguments are not modelled. Both decorators read only keyword arguments and pass `*args` to the wrapped method untouched. A location given positionally is therefore neither resolved nor dropped. For example, `con.get_blob_storage_url("azure://c/f")` never parses the path: `kwargs.get("path")` is `None`, the instance account's URL is returned, and the wrapped method still receives the path as its first argument. The model's guarantees about forwarded keywords hold for keyword calls only.
- Exception messages are not modelled. The model keeps the exception kind and the values the message shows.
- `local_support` and extra-keyword forwarding are not modelled. They belong to another revision of the decorators, which is not part of this model.
- Luigi targets, the shell and container-registry helpers, the Key Vault secrets wrapper and `setup.py` are not part of this model.
- `NewConnector` builds the object and then fills in its fields. Python assigns the fields on an object that already exists; the effect is the same unless `__init__` raises part-way.
- `BlobConnector.Connector.GetBlobServiceClient`: the client's URL is stated only while the fields are as `__init__` left them (`Valid`). After a caller reassigns the fields, the cached client may belong to another account, and the model says nothing about it.

## Findings

| source | as written | input that shows it | evidently intended | confidence | as-written member | corrected member |
|---|---|---|---|---|---|---|
| connector.py:121 | `https://.*\.blob.core.windows.net`: the dots after `blob` are unescaped and match any character | `https://a.blob-core.windows.net/c` is recognised as an Azure path, yet `parse_azure_path` raises an index error on it | escape every dot, so that a recognised path always parses | not executed | Paths.LooseDotsAcceptUnparsable | Paths.EscapedRecogniserParses |
