# NZBHydra 2 torrent gateway and generic storage, modelled in Dafny

This project models two pieces of NZBHydra 2.

- **The torrent download gateway (`TorrentHandlingWeb`).** Three endpoints hand out a torrent for a search-result GUID. Two of them are for logged-in users. The third is for API callers and needs the configured API key. A fourth endpoint saves the torrent into the configured "black hole" folder, where an external download client picks it up.
- **The generic key-value store (`GenericStorage`).** It keeps small values as JSON text under string keys, in a map inside the base configuration. The configuration is persisted after every change.

Files:

- `wrappers.dfy` has module `Wrappers`: `Option`, `Result` and `Outcome`. They stand for Java's nulls, `Optional`s and thrown exceptions.
- `torrent_handling.dfy` has module `TorrentHandling`. It holds the title sanitiser and the torrent file path as pure functions, with lemmas about them, and the class `TorrentHandlingWeb` with the four endpoints as methods.
- `generic_storage.dfy` has module `GenericStorage`. Its class `Store` holds the storage map and a persist counter, and `Save`, `Remove` and `Get` are its methods. Three client methods state the round trips.

Collaborators the model is given rather than modelling:

- The download handler `NzbHandler.getNzbByGuid` is a function-valued field, `resolver`. Every call goes through `GetNzbByGuid`, which appends the call to `resolverCalls`. That makes "the handler is never called" and "it is called with `PROXY`" statable.
- The file system is a map from path to content, `files`. Whether a write fails, and with what message, is decided by another function-valued field, `writeFailure`, from the current files, the path and the content.
- The logger is an appended list of `LogEvent`s.
- The configuration is a snapshot (`Config`): the API key, the configured access type, and the optional black-hole folder. No method changes it.
- Jackson is an `encode` or `decode` function passed to each storage call. Either may fail with a message. `decode` stands for reading the JSON **and** wrapping the value with `Optional.of`. Stored text that Jackson reads as `null` (what saving a `null` value writes) makes `Optional.of` throw, and the read fails with "Error reading data from null". So it counts as a decode failure, and a saved `null` value is never read back.
- `BaseConfig.save(true)` is a counter increment, `Persist`.

The code resolves the GUID **before** it checks that a black-hole folder is configured. So a resolution failure is reported even when no folder is set, and the handler is called in both cases.

## Model

| member | source | states |
|---|---|---|
| `TorrentHandling.SanitizeChar` | core/src/main/java/org/nzbhydra/downloading/TorrentHandlingWeb.java:75 | One of the nine illegal characters becomes `_`, and any other character is kept. The result is never an illegal character. |
| `TorrentHandling.SanitizeTitle` | core/src/main/java/org/nzbhydra/downloading/TorrentHandlingWeb.java:75 | The result has the title's length. It contains none of the nine illegal characters: backslash, slash, colon, asterisk, question mark, double quote, less-than, greater-than and vertical bar. Each of those characters becomes `_` at its position, and every other character is kept at its position. |
| `TorrentHandling.SanitizeIdempotent` | core/src/main/java/org/nzbhydra/downloading/TorrentHandlingWeb.java:75 | Sanitising twice gives the same as sanitising once. |
| `TorrentHandling.SanitizeChangesIffIllegal` | core/src/main/java/org/nzbhydra/downloading/TorrentHandlingWeb.java:75-78 | The sanitised title differs from the title exactly when the title contains an illegal character. This is when the "Sanitized torrent title" event is logged. |
| `TorrentHandling.SanitizeEvents` | core/src/main/java/org/nzbhydra/downloading/TorrentHandlingWeb.java:75-78 | The "Sanitized torrent title" event is logged exactly when the title contains an illegal character. It is then the single event naming the original and the sanitised title. |
| `TorrentHandling.TorrentPath` | core/src/main/java/org/nzbhydra/downloading/TorrentHandlingWeb.java:79 | The path is `<folder>/<title>.torrent`: the folder, then the separator `/`, then the sanitised title, then the `.torrent` extension, and nothing else. |
| `TorrentHandling.TorrentPathInjective` | core/src/main/java/org/nzbhydra/downloading/TorrentHandlingWeb.java:79 | Within one folder, two `<folder>/<title>.torrent` paths are equal exactly when the sanitised titles are equal. |
| `TorrentHandling.SanitizedTitlesCollide` | core/src/main/java/org/nzbhydra/downloading/TorrentHandlingWeb.java:75-79 | Two titles of equal length that differ only where both hold illegal characters are saved to the same file, so the later save overwrites the earlier. |
| `TorrentHandling.ExampleTitleSanitized` | core/src/main/java/org/nzbhydra/downloading/TorrentHandlingWeb.java:75 | `Show: Finale?` sanitises to `Show_ Finale_`. |
| `TorrentHandling.ExamplePath` | core/src/main/java/org/nzbhydra/downloading/TorrentHandlingWeb.java:79 | The sanitised title `Show_ Finale_` in folder `/data/bh` is saved at `/data/bh/Show_ Finale_.torrent`. |
| `TorrentHandling.BlackholeExample` | core/src/main/java/org/nzbhydra/downloading/TorrentHandlingWeb.java:66-88 | A successful resolution of `Show: Finale?`, with folder `/data/bh` and access type `Redirect` configured, and writes that succeed: the response is ok, and the files are exactly `/data/bh/Show_ Finale_.torrent` holding the content. |
| `TorrentHandling.ApiKeyMatches` | core/src/main/java/org/nzbhydra/downloading/TorrentHandlingWeb.java:98 | A key is accepted exactly when it is given and equals the configured key exactly. |
| `TorrentHandling.TorrentHandlingWeb.GetNzbByGuid` | core/src/main/java/org/nzbhydra/downloading/TorrentHandlingWeb.java:67 | Returns the handler's result for the arguments and records exactly that one call. |
| `TorrentHandling.TorrentHandlingWeb.WriteFile` | core/src/main/java/org/nzbhydra/downloading/TorrentHandlingWeb.java:81 | Returns the file system's failure, if any. On success exactly the path now holds the content, overwriting any earlier file. On failure the files are unchanged. |
| `TorrentHandling.TorrentHandlingWeb.ConfiguredDownload` | core/src/main/java/org/nzbhydra/downloading/TorrentHandlingWeb.java:44 | The handler's result for the configured access type and source `INTERNAL`. This is what both user endpoints and an API call with the right key return. |
| `TorrentHandling.TorrentHandlingWeb.DownloadTorrentInternal` | core/src/main/java/org/nzbhydra/downloading/TorrentHandlingWeb.java:43-45 | Returns the handler's result for the configured access type and source `INTERNAL`. Records that one call. |
| `TorrentHandling.TorrentHandlingWeb.DownloadTorrentForUsers` | core/src/main/java/org/nzbhydra/downloading/TorrentHandlingWeb.java:55-57 | Same as `DownloadTorrentInternal`: the configured access type and source `INTERNAL`, one recorded call. |
| `TorrentHandling.TorrentHandlingWeb.DownloadTorrentWithApikey` | core/src/main/java/org/nzbhydra/downloading/TorrentHandlingWeb.java:96-104 | It fails exactly when the key is missing or not equal to the configured key. A failure is `WrongApiKeyException("Wrong api key")` with one error event logged, and the handler is not called. With an equal key, the result and the recorded call match the user endpoints, and nothing is logged. |
| `TorrentHandling.TorrentHandlingWeb.SentTorrentToBlackhole` | core/src/main/java/org/nzbhydra/downloading/TorrentHandlingWeb.java:66-88 | The handler is called once, with `PROXY`, whatever access type is configured. A failed resolution gives `notOk(error)` verbatim, with no file written and nothing logged, even when no folder is set. With no folder set, the result is `notOk("Torrent black hole folder not set")`, no file is written, and one error event is logged. Otherwise the path is `<folder>/<sanitised title>.torrent`, and a "sanitized" event is logged exactly when the title changed. A successful write puts the content at exactly that path, logs the saved path, and returns `ok`. A failed write leaves the files unchanged, logs the failure, and returns `notOk("Error saving torrent file: " + message)`. |
| `GenericStorage.Store.Persist` | core/src/main/java/org/nzbhydra/genericstorage/GenericStorage.java:23 | Persisting the configuration increases the persist count by one. |
| `GenericStorage.Store.Save` | core/src/main/java/org/nzbhydra/genericstorage/GenericStorage.java:19-27 | It succeeds exactly when encoding succeeds. Then the map is the old map with the key bound to the encoding, no other key changes, and the configuration is persisted exactly once. If encoding fails, the error is `"Error writing data as JSON"` carrying the encoder's message. The map is then unchanged and nothing is persisted. |
| `GenericStorage.Store.Remove` | core/src/main/java/org/nzbhydra/genericstorage/GenericStorage.java:29-33 | The map is the old map without the key, with every other key unchanged. An absent key leaves it as it was. The configuration is persisted exactly once either way. |
| `GenericStorage.Store.Get` | core/src/main/java/org/nzbhydra/genericstorage/GenericStorage.java:35-45 | The result is empty exactly when the key is absent. For a present key it is `Some` of the decoded stored text, or an error `"Error reading data from " + <stored text>` carrying the decoder's message. It changes neither the map nor the persist count. |
| `GenericStorage.SaveThenGet` | core/src/main/java/org/nzbhydra/genericstorage/GenericStorage.java:19-45 | If a value encodes and its encoding decodes back to it, reading the key right after saving it gives `Some(value)`. A `null` value never meets this premise, because decoding its text fails. Exactly one persist happens. |
| `GenericStorage.RemoveThenGet` | core/src/main/java/org/nzbhydra/genericstorage/GenericStorage.java:29-45 | Reading a key right after removing it gives empty. |
| `GenericStorage.OtherKeyUnaffected` | core/src/main/java/org/nzbhydra/genericstorage/GenericStorage.java:19-45 | Saving or removing one key does not change what reading a different key returns. |

## Left out

- Spring routing, `@Secured` role checks and dependency injection. The endpoints are methods of one object, and the role check is assumed done by the framework.
- `NzbDownloadResult.getAsResponseEntity()`: the download endpoints return the handler's result. How a redirect or a binary response is built from it is not modelled.
- What the download handler does (fetching from the indexer, proxying) is not modelled. The handler is an arbitrary function of GUID, access type and source.
- GUIDs are Java `long`s. They are modelled as unbounded integers, since the gateway only passes them on.
- `new File(folder, name)` is modelled as `folder + "/" + name`. Path normalisation, absolute paths and the empty-folder case of `java.io.File` are not modelled. The logged path is this joined path.
- `String.getBytes()` and its charset are not modelled: the torrent's text is stored as it is.
- `TorrentHandling.TorrentHandlingWeb.WriteFile`: a failed write leaves the files unchanged. A file that Guava's `Files.write` truncated or wrote partly before failing is not modelled.
- Java `null`s in the gateway are not modelled: titles, contents, configured API keys and exception messages are always strings. In the code:
  - a successful result with a `null` title throws an uncaught `NullPointerException` while sanitising, before the `try`;
  - `null` content throws inside the `try`, which is caught and answered with `notOk("Error saving torrent file: null")`;
  - with no API key configured, no supplied key equals it, so every API-key download is refused with `WrongApiKeyException`;
  - an exception without a message would print as `null` in the save error.
- `GenericStorage.Store.Get`: a stored value that Jackson reads as `null` is not modelled separately. In the code it makes `Optional.of` throw, and the read fails with "Error reading data from null". The model covers this only by counting it as a decode failure, so a `decode` that returned such a value as a success would not match the code.
- Log events carry their arguments, but not the exception objects that were passed to the logger. A failed save records only the exception's message, where the code logs the exception itself. Log levels are not modelled.
- `UserAgentMapper` is injected but never used, so it is not modelled.
- Jackson's JSON format and `Class<T>` reflection: encoding and decoding are arbitrary functions that may fail.
- What `BaseConfig.save(true)` writes to disk is not modelled, and neither is a failure of it: a persist only increments a counter.
- Concurrent saves or writes are not modelled. The code has no synchronisation of its own.
