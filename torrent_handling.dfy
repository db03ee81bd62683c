/**
 * The torrent download gateway: three endpoints that resolve a search-result
 * GUID through the download handler, and one that saves the resolved torrent
 * into the configured black-hole folder.
 *
 * The download handler, the file system and the logger are collaborators:
 * the handler is a function the gateway is given, every call to it is
 * recorded, files are a map from path to content whose writes may fail, and
 * log output is a list of events.
 */
module TorrentHandling {
  import opened Wrappers

  /** A search result's identifier (a Java `long`, passed through unchanged). */
  type Guid = int
  type Path = string

  /** How a download is handed to the caller: a redirect to the indexer, or fetched by the server. */
  datatype AccessType = Redirect | Proxy

  /** Where a download request comes from. */
  datatype SearchSource = Internal | Api

  /** What the download handler returns for a GUID. */
  datatype DownloadResult = DownloadResult(successful: bool, title: string, content: string, error: string)

  /** The JSON answer of the save endpoint: `GenericResponse.ok()` or `GenericResponse.notOk(message)`. */
  datatype GenericResponse = Ok | NotOk(message: string)

  /** The exception the API-key endpoint throws. */
  datatype WrongApiKeyException = WrongApiKeyException(message: string)

  /** The configuration values the gateway reads. */
  datatype Config = Config(apiKey: string, accessType: AccessType, saveTorrentsTo: Option<Path>)

  /** A call of the download handler with its arguments. */
  datatype ResolverCall = ResolverCall(guid: Guid, accessType: AccessType, source: SearchSource)

  /** What the gateway logs. */
  datatype LogEvent =
    | WrongApiKeyLogged
    | FolderNotSetLogged
    | TitleSanitized(original: string, sanitized: string)
    | TorrentSaved(path: Path)
    | SaveFailed(cause: string)

  const WrongApiKeyMessage := "Wrong api key"
  const FolderNotSetMessage := "Torrent black hole folder not set"
  const SaveErrorPrefix := "Error saving torrent file: "
  const TorrentExtension := ".torrent"

  /** The characters the regular expression `[\\/:*?"<>|]` matches. */
  const IllegalTitleChars: set<char> := {'\\', '/', ':', '*', '?', '\"', '<', '>', '|'}

  /** One title character made safe: an illegal character becomes `_`, any other is kept. */
  function SanitizeChar(c: char): (r: char)
    ensures r !in IllegalTitleChars
    ensures c in IllegalTitleChars ==> r == '_'
    ensures c !in IllegalTitleChars ==> r == c
  {
    if c in IllegalTitleChars then '_' else c
  }

  /**
   * The title with every file-system-illegal character replaced by `_`.
   * Positions and all other characters are kept.
   */
  function SanitizeTitle(title: string): (r: string)
    ensures |r| == |title|
    ensures forall i :: 0 <= i < |r| ==> r[i] !in IllegalTitleChars
    ensures forall i :: 0 <= i < |title| && title[i] in IllegalTitleChars ==> r[i] == '_'
    ensures forall i :: 0 <= i < |title| && title[i] !in IllegalTitleChars ==> r[i] == title[i]
  {
    if title == [] then [] else [SanitizeChar(title[0])] + SanitizeTitle(title[1..])
  }

  /** Sanitising a sanitised title changes nothing. */
  lemma {:induction false} SanitizeIdempotent(title: string)
    ensures SanitizeTitle(SanitizeTitle(title)) == SanitizeTitle(title)
  {
    var s := SanitizeTitle(title);
    var t := SanitizeTitle(s);
    assert |t| == |s|;
    forall i | 0 <= i < |s| ensures t[i] == s[i] {
      assert s[i] !in IllegalTitleChars;
    }
  }

  /** Sanitising changes a title exactly when the title holds an illegal character. */
  lemma {:induction false} SanitizeChangesIffIllegal(title: string)
    ensures SanitizeTitle(title) != title <==> exists i :: 0 <= i < |title| && title[i] in IllegalTitleChars
  {
    var s := SanitizeTitle(title);
    if exists i :: 0 <= i < |title| && title[i] in IllegalTitleChars {
      var i :| 0 <= i < |title| && title[i] in IllegalTitleChars;
      assert s[i] == '_' && '_' !in IllegalTitleChars;
      assert s[i] != title[i];
    } else {
      assert |s| == |title|;
      forall i | 0 <= i < |title| ensures s[i] == title[i] {
        assert title[i] !in IllegalTitleChars;
      }
    }
  }

  /** The path of the torrent file for a sanitised title: the title with the `.torrent` extension, inside the folder. */
  function TorrentPath(folder: Path, sanitizedTitle: string): (p: Path)
    ensures |p| == |folder| + 1 + |sanitizedTitle| + |TorrentExtension|
    ensures p[..|folder|] == folder && p[|folder|] == '/'
    ensures p[|folder| + 1..|folder| + 1 + |sanitizedTitle|] == sanitizedTitle
    ensures p[|folder| + 1 + |sanitizedTitle|..] == TorrentExtension
  {
    folder + "/" + sanitizedTitle + TorrentExtension
  }

  /** Within one folder, the file name determines the (sanitised) title. */
  lemma {:induction false} TorrentPathInjective(folder: Path, a: string, b: string)
    ensures TorrentPath(folder, a) == TorrentPath(folder, b) <==> a == b
  {
    if TorrentPath(folder, a) == TorrentPath(folder, b) {
      var p := TorrentPath(folder, a);
      var k := |folder| + 1;
      assert |a| == |b|;
      assert p[k..k + |a|] == a;
      assert TorrentPath(folder, b)[k..k + |b|] == b;
    }
  }

  /** Two titles that differ only in illegal characters are saved to the same file. */
  lemma {:induction false} SanitizedTitlesCollide(folder: Path, a: string, b: string)
    requires |a| == |b|
    requires forall i :: 0 <= i < |a| ==> a[i] == b[i] || (a[i] in IllegalTitleChars && b[i] in IllegalTitleChars)
    ensures TorrentPath(folder, SanitizeTitle(a)) == TorrentPath(folder, SanitizeTitle(b))
  {
    var sa, sb := SanitizeTitle(a), SanitizeTitle(b);
    forall i | 0 <= i < |a| ensures sa[i] == sb[i] {
      if a[i] != b[i] {
        assert a[i] in IllegalTitleChars && b[i] in IllegalTitleChars;
      }
    }
    assert sa == sb;
  }

  /**
   * What is logged about sanitising a title: one event naming the title and its
   * sanitised form, exactly when the title holds an illegal character.
   */
  function SanitizeEvents(title: string): (r: seq<LogEvent>)
    ensures r != [] <==> exists i :: 0 <= i < |title| && title[i] in IllegalTitleChars
    ensures r != [] ==> r == [TitleSanitized(title, SanitizeTitle(title))]
  {
    SanitizeChangesIffIllegal(title);
    var sanitized := SanitizeTitle(title);
    if sanitized != title then [TitleSanitized(title, sanitized)] else []
  }

  /** The API key is given and equals the configured key exactly. */
  predicate ApiKeyMatches(apikey: Option<string>, configured: string): (b: bool)
    ensures b <==> apikey == Some(configured)
  {
    apikey.Some? && apikey.value == configured
  }

  class TorrentHandlingWeb {
    /** The configuration as read during a request (no method here changes it). */
    const config: Config
    /** The download handler, `NzbHandler.getNzbByGuid`. */
    const resolver: (Guid, AccessType, SearchSource) -> DownloadResult
    /** The file system's verdict on writing content to a path: none, or the failure's message. */
    const writeFailure: (map<Path, string>, Path, string) -> Option<string>

    var files: map<Path, string>
    var log: seq<LogEvent>
    var resolverCalls: seq<ResolverCall>

    constructor (config: Config, resolver: (Guid, AccessType, SearchSource) -> DownloadResult,
                 writeFailure: (map<Path, string>, Path, string) -> Option<string>, files: map<Path, string>)
      ensures this.config == config && this.resolver == resolver && this.writeFailure == writeFailure
      ensures this.files == files && log == [] && resolverCalls == []
    {
      this.config := config;
      this.resolver := resolver;
      this.writeFailure := writeFailure;
      this.files := files;
      log := [];
      resolverCalls := [];
    }

    /** What the user endpoints deliver: the handler's result for the configured access type. */
    function ConfiguredDownload(guid: Guid): DownloadResult {
      resolver(guid, config.accessType, Internal)
    }

    /** Calls the download handler and records the call. */
    method GetNzbByGuid(guid: Guid, accessType: AccessType, source: SearchSource) returns (r: DownloadResult)
      modifies this`resolverCalls
      ensures r == resolver(guid, accessType, source)
      ensures resolverCalls == old(resolverCalls) + [ResolverCall(guid, accessType, source)]
    {
      r := resolver(guid, accessType, source);
      resolverCalls := resolverCalls + [ResolverCall(guid, accessType, source)];
    }

    /** Writes the content to the path, replacing any file there, unless the file system refuses. */
    method WriteFile(path: Path, content: string) returns (failure: Option<string>)
      modifies this`files
      ensures failure == writeFailure(old(files), path, content)
      ensures files == if failure.None? then old(files)[path := content] else old(files)
    {
      failure := writeFailure(files, path, content);
      if failure.None? {
        files := files[path := content];
      }
    }

    /** `/internalapi/torrent/{guid}`, for a logged-in user. */
    method DownloadTorrentInternal(guid: Guid) returns (r: DownloadResult)
      modifies this`resolverCalls
      ensures r == ConfiguredDownload(guid)
      ensures resolverCalls == old(resolverCalls) + [ResolverCall(guid, config.accessType, Internal)]
    {
      r := GetNzbByGuid(guid, config.accessType, Internal);
    }

    /** `/gettorrent/user/{guid}`, for a logged-in user; the same resolution. */
    method DownloadTorrentForUsers(guid: Guid) returns (r: DownloadResult)
      modifies this`resolverCalls
      ensures r == ConfiguredDownload(guid)
      ensures resolverCalls == old(resolverCalls) + [ResolverCall(guid, config.accessType, Internal)]
    {
      r := GetNzbByGuid(guid, config.accessType, Internal);
    }

    /**
     * `/gettorrent/api/{guid}?apikey=`: a missing or different key is refused
     * before the handler is called; an equal key gets what the user endpoints get.
     */
    method DownloadTorrentWithApikey(guid: Guid, apikey: Option<string>) returns (r: Result<DownloadResult, WrongApiKeyException>)
      modifies this`resolverCalls, this`log
      ensures r.Failure? <==> !ApiKeyMatches(apikey, config.apiKey)
      ensures r.Failure? ==>
                && r.error == WrongApiKeyException(WrongApiKeyMessage)
                && resolverCalls == old(resolverCalls)
                && log == old(log) + [WrongApiKeyLogged]
      ensures r.Success? ==>
                && r.value == ConfiguredDownload(guid)
                && resolverCalls == old(resolverCalls) + [ResolverCall(guid, config.accessType, Internal)]
                && log == old(log)
    {
      if apikey.None? || apikey.value != config.apiKey {
        log := log + [WrongApiKeyLogged];
        return Failure(WrongApiKeyException(WrongApiKeyMessage));
      }
      var d := GetNzbByGuid(guid, config.accessType, Internal);
      r := Success(d);
    }

    /**
     * `/internalapi/saveTorrent/{guid}`: fetches the torrent through the server,
     * then saves it as `<folder>/<sanitised title>.torrent`.
     */
    method SentTorrentToBlackhole(guid: Guid) returns (r: GenericResponse)
      modifies this`resolverCalls, this`files, this`log
      // the handler is called once, always in proxy mode, whatever is configured
      ensures resolverCalls == old(resolverCalls) + [ResolverCall(guid, Proxy, Internal)]
      // a failed resolution is passed through verbatim, before the folder is looked at
      ensures var d := resolver(guid, Proxy, Internal);
              !d.successful ==> r == NotOk(d.error) && files == old(files) && log == old(log)
      ensures var d := resolver(guid, Proxy, Internal);
              d.successful && config.saveTorrentsTo.None? ==>
                && r == NotOk(FolderNotSetMessage)
                && files == old(files)
                && log == old(log) + [FolderNotSetLogged]
      ensures var d := resolver(guid, Proxy, Internal);
              d.successful && config.saveTorrentsTo.Some? ==>
                var title := SanitizeTitle(d.title);
                var path := TorrentPath(config.saveTorrentsTo.value, title);
                match writeFailure(old(files), path, d.content)
                case None =>
                  && r == Ok
                  && files == old(files)[path := d.content]
                  && log == old(log) + SanitizeEvents(d.title) + [TorrentSaved(path)]
                case Some(cause) =>
                  && r == NotOk(SaveErrorPrefix + cause)
                  && files == old(files)
                  && log == old(log) + SanitizeEvents(d.title) + [SaveFailed(cause)]
    {
      var d := GetNzbByGuid(guid, Proxy, Internal);
      if !d.successful {
        return NotOk(d.error);
      }
      if config.saveTorrentsTo.None? {
        log := log + [FolderNotSetLogged];
        return NotOk(FolderNotSetMessage);
      }
      var title := SanitizeTitle(d.title);
      if title != d.title {
        log := log + [TitleSanitized(d.title, title)];
      }
      var path := TorrentPath(config.saveTorrentsTo.value, title);
      var failure := WriteFile(path, d.content);
      if failure.Some? {
        log := log + [SaveFailed(failure.value)];
        return NotOk(SaveErrorPrefix + failure.value);
      }
      log := log + [TorrentSaved(path)];
      r := Ok;
    }
  }

  /** The title of the worked example below, sanitised: the colon and the question mark become `_`. */
  lemma ExampleTitleSanitized(title: string)
    requires title == "Show: Finale?"
    ensures SanitizeTitle(title) == "Show_ Finale_"
  {
    var sanitized := SanitizeTitle(title);
    assert title[0] !in IllegalTitleChars;
    assert title[1] !in IllegalTitleChars;
    assert title[2] !in IllegalTitleChars;
    assert title[3] !in IllegalTitleChars;
    assert title[4] in IllegalTitleChars;
    assert title[5] !in IllegalTitleChars;
    assert title[6] !in IllegalTitleChars;
    assert title[7] !in IllegalTitleChars;
    assert title[8] !in IllegalTitleChars;
    assert title[9] !in IllegalTitleChars;
    assert title[10] !in IllegalTitleChars;
    assert title[11] !in IllegalTitleChars;
    assert title[12] in IllegalTitleChars;
    assert sanitized == "Show_ Finale_";
  }

  /** The worked example's sanitised title, saved in `/data/bh`. */
  lemma ExamplePath(folder: Path, sanitizedTitle: string)
    requires folder == "/data/bh" && sanitizedTitle == "Show_ Finale_"
    ensures TorrentPath(folder, sanitizedTitle) == "/data/bh/Show_ Finale_.torrent"
  {
    assert folder + "/" + sanitizedTitle + TorrentExtension == "/data/bh/Show_ Finale_.torrent";
  }

  /**
   * A resolved torrent titled `Show: Finale?`, saved with black-hole folder
   * `/data/bh` and access type `Redirect` configured, on a file system that
   * accepts every write: the response is ok and the file system holds exactly
   * `/data/bh/Show_ Finale_.torrent` with the torrent's content.
   */
  method BlackholeExample(title: string, content: string) returns (r: GenericResponse, files: map<Path, string>)
    requires title == "Show: Finale?"
    ensures r == Ok
    ensures files == map["/data/bh/Show_ Finale_.torrent" := content]
  {
    var resolver := (g: Guid, a: AccessType, s: SearchSource) => DownloadResult(true, title, content, "");
    var noFailure := (f: map<Path, string>, p: Path, c: string) => None;
    var web := new TorrentHandlingWeb(Config("key", Redirect, Some("/data/bh")), resolver, noFailure, map[]);
    ExampleTitleSanitized(title);
    ExamplePath("/data/bh", SanitizeTitle(title));
    var path := TorrentPath("/data/bh", SanitizeTitle(title));
    assert noFailure(map[], path, content) == None;
    r := web.SentTorrentToBlackhole(42);
    assert web.files == map[path := content];
    files := web.files;
  }
}
