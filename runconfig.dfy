/** The run configuration (util/context.go): where the documents are stored, which
    directories are read, which formats are rendered. The command-line flags and
    positional arguments come in as plain values. */
module RunConfig {
  import opened Wrappers
  import opened Text
  import opened Seqs
  import opened Formats

  datatype S3Context = S3Context(endpoint: string, accessKey: string, secretKey: string, bucket: string,
                                 prefix: string, secure: bool)

  datatype AzureBlobContext = AzureBlobContext(connectionString: string, container: string, prefix: string)

  const ZeroS3: S3Context := S3Context("", "", "", "", "", false)
  const ZeroAzure: AzureBlobContext := AzureBlobContext("", "", "")

  /** FILE, S3, AZURE_BLOB, and the empty destination returned with an error. */
  datatype StorageDestination = NoDestination | File | S3 | AzureBlob

  /** The storage flags, as initStorage receives them. */
  datatype StorageFlags = StorageFlags(
    fileDestination: string,
    s3Endpoint: string, s3SecretKey: string, s3Bucket: string, s3AccessKey: string, s3Prefix: string,
    s3Secure: bool,
    azureConnectionString: string, azureContainer: string, azurePrefix: string)

  /** The five values initStorage returns. */
  datatype Storage = Storage(
    destination: StorageDestination,
    fileDestination: Option<string>,
    s3: S3Context,
    azure: AzureBlobContext,
    err: Option<string>)

  const NoStorageError: string := "provide either a valid file destination, S3 config or Azure Blob config"

  /** A storage prefix that ends with `/`: the slash is added only when missing. */
  function WithTrailingSlash(prefix: string): (r: string)
    ensures HasSuffix(r, "/")
    ensures HasSuffix(prefix, "/") ==> r == prefix
    ensures !HasSuffix(prefix, "/") ==> r == prefix + "/"
  {
    if HasSuffix(prefix, "/") then prefix else prefix + "/"
  }

  /** Normalising a prefix twice is normalising it once. */
  lemma TrailingSlashIdempotent(prefix: string)
    ensures WithTrailingSlash(WithTrailingSlash(prefix)) == WithTrailingSlash(prefix)
  {
  }

  predicate S3Complete(f: StorageFlags) {
    f.s3Endpoint != "" && f.s3SecretKey != "" && f.s3Bucket != "" && f.s3AccessKey != "" && f.s3Prefix != ""
  }

  predicate AzureComplete(f: StorageFlags) {
    f.azureConnectionString != "" && f.azureContainer != "" && f.azurePrefix != ""
  }

  /** initStorage: a file destination wins; then S3 when all five of its settings are
      given; then Azure Blob when all three of its settings are given; otherwise an
      error with every value zero. Only the chosen destination's context is filled. */
  function InitStorage(f: StorageFlags): (r: Storage)
    ensures r.err.None? <==> f.fileDestination != "" || S3Complete(f) || AzureComplete(f)
    ensures r.err.Some? ==> r == Storage(NoDestination, None, ZeroS3, ZeroAzure, Some(NoStorageError))
    ensures f.fileDestination != "" ==> r == Storage(File, Some(f.fileDestination), ZeroS3, ZeroAzure, None)
    ensures r.destination == S3 <==> f.fileDestination == "" && S3Complete(f)
    ensures r.destination == S3 ==>
              r == Storage(S3, None, S3Context(f.s3Endpoint, f.s3AccessKey, f.s3SecretKey, f.s3Bucket,
                                               WithTrailingSlash(f.s3Prefix), f.s3Secure), ZeroAzure, None)
    ensures r.destination == AzureBlob <==> f.fileDestination == "" && !S3Complete(f) && AzureComplete(f)
    ensures r.destination == AzureBlob ==>
              r == Storage(AzureBlob, None, ZeroS3,
                           AzureBlobContext(f.azureConnectionString, f.azureContainer, WithTrailingSlash(f.azurePrefix)), None)
  {
    if f.fileDestination != "" then
      Storage(File, Some(f.fileDestination), ZeroS3, ZeroAzure, None)
    else if S3Complete(f) then
      var prefix := if !HasSuffix(f.s3Prefix, "/") then f.s3Prefix + "/" else f.s3Prefix;
      Storage(S3, None, S3Context(f.s3Endpoint, f.s3AccessKey, f.s3SecretKey, f.s3Bucket, prefix, f.s3Secure), ZeroAzure, None)
    else if AzureComplete(f) then
      var prefix := if !HasSuffix(f.azurePrefix, "/") then f.azurePrefix + "/" else f.azurePrefix;
      Storage(AzureBlob, None, ZeroS3, AzureBlobContext(f.azureConnectionString, f.azureContainer, prefix), None)
    else
      Storage(NoDestination, None, ZeroS3, ZeroAzure, Some(NoStorageError))
  }

  /** The chosen cloud prefix keeps the configured prefix and ends in exactly the
      slashes it had, plus one when it had none. */
  lemma ChosenPrefix(f: StorageFlags)
    ensures InitStorage(f).destination == S3 ==>
              f.s3Prefix <= InitStorage(f).s3.prefix && HasSuffix(InitStorage(f).s3.prefix, "/")
              && |InitStorage(f).s3.prefix| - |f.s3Prefix| == (if HasSuffix(f.s3Prefix, "/") then 0 else 1)
    ensures InitStorage(f).destination == AzureBlob ==>
              f.azurePrefix <= InitStorage(f).azure.prefix && HasSuffix(InitStorage(f).azure.prefix, "/")
              && |InitStorage(f).azure.prefix| - |f.azurePrefix| == (if HasSuffix(f.azurePrefix, "/") then 0 else 1)
  {
  }

  /** Once a file destination is given, no S3 or Azure setting changes anything. */
  lemma FileDestinationWins(f: StorageFlags, g: StorageFlags)
    requires f.fileDestination != "" && g.fileDestination == f.fileDestination
    ensures InitStorage(f) == InitStorage(g)
  {
  }

  // ---- the requested formats ----

  /** What the loop finds for one name of the list: nothing for the empty name,
      otherwise the built-in format of that name, if any. */
  function Lookup(name: string): (r: Option<Format>)
    ensures name == "" ==> r.None?
    ensures r.Some? ==> r.value in KnownBaseFormats && r.value.name == name
  {
    if name == "" then None else BuiltinNamed(name)
  }

  function Lookups(names: seq<string>): (r: seq<Option<Format>>)
    ensures |r| == |names|
    ensures forall i :: 0 <= i < |names| ==> r[i] == Lookup(names[i])
  {
    seq(|names|, i requires 0 <= i < |names| => Lookup(names[i]))
  }

  /** The formats found for the names of the list, in order. */
  function RequestedFormats(names: seq<string>): (formats: seq<Format>)
    ensures |formats| <= |names|
  {
    Somes(Lookups(names))
  }

  /** A format is requested exactly when some non-empty name of the list is its name,
      and it is a built-in. */
  lemma RequestedFormatsMembers(names: seq<string>, f: Format)
    ensures f in RequestedFormats(names) <==> exists i :: 0 <= i < |names| && Lookup(names[i]) == Some(f)
    ensures f in RequestedFormats(names) ==> f in KnownBaseFormats && f.name in names && f.name != ""
  {
    SomesMember(Lookups(names), f);
  }

  /** Every requested format is a built-in. */
  lemma RequestedAreBuiltins(names: seq<string>)
    ensures forall f :: f in RequestedFormats(names) ==> f in KnownBaseFormats
  {
    forall f | f in RequestedFormats(names) ensures f in KnownBaseFormats {
      RequestedFormatsMembers(names, f);
    }
  }

  /** The formats a `formats` flag selects: its comma-separated names, or JSON alone
      when none of them is known. */
  function ParsedFormats(flag: string): (formats: seq<Format>)
    ensures formats != []
    ensures forall f :: f in formats ==> f in KnownBaseFormats
    ensures RequestedFormats(Split(flag, ',')) == [] ==> formats == [JsonFormat]
    ensures RequestedFormats(Split(flag, ',')) != [] ==> formats == RequestedFormats(Split(flag, ','))
  {
    var requested := RequestedFormats(Split(flag, ','));
    RequestedAreBuiltins(Split(flag, ','));
    if requested == [] then [JsonFormat] else requested
  }

  /** The flags and positional arguments CreateContext reads. */
  datatype Flags = Flags(storage: StorageFlags, formats: string)

  datatype Context = Context(
    s3: S3Context,
    azureBlob: AzureBlobContext,
    fileDestination: Option<string>,
    storageDestination: StorageDestination,
    assetDir: string,
    configPath: string,
    formats: seq<Format>)

  const ArgumentsError: string := "expect ASSET_DIR and CONFIG_PATH as arguments"

  /** The loop of CreateContext over the comma-separated names of the `formats` flag. */
  method SelectFormats(flag: string) returns (formats: seq<Format>)
    ensures formats == ParsedFormats(flag)
  {
    var names := Split(flag, ',');
    formats := [];
    for i := 0 to |names|
      invariant formats == RequestedFormats(names[..i])
    {
      assert Lookups(names[..i + 1])[..i] == Lookups(names[..i]);
      if names[i] != "" {
        var f, ok := GetFormat(names[i]);
        if ok {
          formats := formats + [f];
        }
      }
    }
    TakeAll(names, |names|);
    if formats == [] {
      formats := [JsonFormat];
    }
  }

  /** CreateContext: the storage choice, then the two positional arguments with
      leading and trailing slashes trimmed, then the formats. A storage error comes
      before a missing argument. */
  method CreateContext(flags: Flags, args: seq<string>) returns (r: Result<Context>)
    ensures InitStorage(flags.storage).err.Some? ==> r == Failure(InitStorage(flags.storage).err.value)
    ensures InitStorage(flags.storage).err.None? && |args| < 2 ==> r == Failure(ArgumentsError)
    ensures r.Success? <==> InitStorage(flags.storage).err.None? && |args| >= 2
    ensures r.Success? ==>
              var s := InitStorage(flags.storage);
              r.value == Context(s.s3, s.azure, s.fileDestination, s.destination,
                                 Trim(args[0], '/'), Trim(args[1], '/'), ParsedFormats(flags.formats))
  {
    var storage := InitStorage(flags.storage);
    if storage.err.Some? {
      return Failure(storage.err.value);
    }
    if |args| <= 1 {
      return Failure(ArgumentsError);
    }
    var assetDir := Trim(args[0], '/');
    var configPath := Trim(args[1], '/');
    var formats := SelectFormats(flags.formats);
    return Success(Context(storage.s3, storage.azure, storage.fileDestination, storage.destination,
                           assetDir, configPath, formats));
  }
}
