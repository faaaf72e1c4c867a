# USS storage adapter: listing, path mapping and error classification

This project models the core of the UpYun storage service (USS) adapter of
go-storage in Dafny. The adapter exposes a bucket through the framework's
generic storage interface. The model covers four pieces:

- **Path mapping** (`Service`): the handle's working directory, with at most
  one leading `/` removed, is the root prefix of every key. `AbsPath`
  prepends it to a logical path and `RelPath` strips it from a key with
  Go's `strings.TrimPrefix`. Both are proved to round-trip. Stripping does
  not check for a `/` after the root, and a lemma shows that.
- **Error classification** (`Errors`): an error is its message text. The
  message is searched for the substring `"code": ` and then for a fixed set
  of codes. The result is tagged `Unchanged`, `NotExist` or
  `PermissionDenied` and always keeps the original message.
- **Object formatting** (`Objects`): a backend `FileInfo` record becomes a
  framework `Object`. The hash and content type are set only when they are
  not empty.
- **Listing** (`Listing`): `List` builds the cursor (`limit`, `prefix`,
  `iter`) and picks a producer from the list mode. The two page producers
  are methods on a mutable `ObjectPage` and its `PageStatus`. Each asks the
  bucket for one page, appends the formatted records to `data` in arrival
  order (the prefix producer skips directories), and then either reports
  `IterateDone` on the end token `g2gCZAAEbmV4dGQAA2VvZg` or moves `iter`
  to the returned token.

The bucket is a parameter: a function from the request (prefix, depth,
headers) to the records it delivers, the token the SDK writes back into the
`X-List-Iter` header, and the error the SDK call returns. `GoStrings` models
`strings.TrimPrefix` and `strings.Contains`. `Wrappers` holds `Option` and
`Result`.

What the code does at three points that a reader might expect otherwise:

- An error with an unknown code, or with no code and no `404`, is returned
  unchanged (utils.go:89, utils.go:100). It is not wrapped in any other error.
- The producers' result does not normally report the error of
  `bucket.List`. The worker goroutine writes that error into the producer's
  named result, and the producer's own `return IterateDone` or `return nil`
  writes the same variable without taking the lock. The two writes race.
  In the usual interleaving the returned value is the producer's own, and
  that is the outcome the step methods' contracts give: they do not mention
  `ListResponse.err`.
- A key maps to a path and back to itself only when it starts with the root
  prefix (`AbsOfRel`), and the prefix is stripped without checking for a
  `/` after it (`RelPathIgnoresBoundary`).

## Model

| member | source | states |
|---|---|---|
| `GoStrings.TrimPrefix` | utils.go:113 | a string starting with the prefix loses exactly that prefix; any other string is returned unchanged |
| `GoStrings.ContainsIff` | utils.go:78-80 | specifies `GoStrings.Contains`, the model of `strings.Contains` used by the classifier: it holds exactly when the needle occurs at some index of the message, including the empty needle |
| `GoStrings.ContainsFront` | utils.go:78-94 | a message containing `"code": ` followed by a code also contains `"code": `, so any coded message takes the code branch |
| `Service.NewStorage` | utils.go:68-72 | the handle keeps the given name; its working directory is the supplied one, or `/` when none is supplied |
| `Service.Root` | utils.go:106 | the root prefix is the working directory with at most one leading `/` removed |
| `Service.AbsPath` | utils.go:105-108 | the key starts with the root prefix, and what follows the root is exactly the logical path |
| `Service.RelPath` | utils.go:111-114 | a key under the root loses exactly the root; any other key is returned unchanged |
| `Service.RelOfAbs` | utils.go:105-114 | every logical path survives the trip to a key and back |
| `Service.AbsOfRel` | utils.go:105-114 | a key survives the trip to a path and back if and only if it starts with the root prefix |
| `Service.RelPathIgnoresBoundary` | utils.go:111-114 | with working directory `/a`, key `ab/x`, which is outside directory `a`, maps to path `b/x`, and `b/x` maps back to `ab/x` |
| `Service.RootStripsOneSlash` | utils.go:106 | only one leading `/` is removed: working directory `//d` gives root `/d` |
| `Service.DefaultWorkDirIsIdentity` | utils.go:69-72 | without a configured working directory the root is empty and both mappings are the identity |
| `Errors.CodeImpliesField` | utils.go:78-94 | any message holding a code also holds the bare code field |
| `Errors.FormatError` | utils.go:77-102 | the result keeps the original message; it is NotExist iff the message has code 40400001, or has no code field and contains `404`; PermissionDenied iff it lacks 40400001 and has one of 40100017, 40100019, 40300011; Unchanged in every other case |
| `Errors.NotFoundBeforePermission` | utils.go:91-98 | a message carrying both the not-found code and a permission code is NotExist |
| `Errors.PermissionCodeDenies` | utils.go:94-98 | a message carrying a permission code and not the not-found code is PermissionDenied |
| `Errors.CodeFieldDisables404` | utils.go:82-100 | once a code field is present, `404` in the text no longer means NotExist: an unknown code is returned unchanged |
| `Errors.WrapError` | utils.go:116-127 | no error gives no error; an error gives a storage error with the operation, the handle, the paths and the classified error, which keeps the original message |
| `Objects.FormatFileObject` | utils.go:129-147 | id is the record's name and path its relative path; mode is read only; size, time and service metadata are copied; the hash and content type are present iff non-empty, and equal the record's values |
| `Objects.FileRecordRoundTrip` | utils.go:129-147 | the file record can be read back from the object, so omitting an empty hash or content type loses nothing |
| `Objects.FileObjectShape` | utils.go:130-133 | a file object is never a directory, and its id is recovered from its path iff the name lies under the root |
| `Listing.List` | storage.go:44-67 | the directory producer is chosen when the mode is Dir (checked first), else the prefix producer when it is Prefix, else the error "invalid list mode"; the cursor has limit "50", a prefix under the root that maps back to the path, and iter set to the supplied token or "" |
| `Listing.Metadata` | storage.go:69-74 | the metadata carries the handle's name and working directory |
| `Listing.Request` | storage.go:79-95 | a page request goes to the cursor's prefix with exactly the limit and iter headers carrying the cursor's limit and iter; depth 1 for the directory producer, -1 for the prefix producer |
| `Listing.Outcome` | storage.go:125-130 | a page reports IterateDone iff the returned token is the end token |
| `Listing.Advance` | storage.go:125-130 | the end token leaves the cursor unchanged; any other token becomes its iter; limit and prefix never change |
| `Listing.DirObject` | storage.go:103-114 | a directory record gives a finished directory object with the record's name as id, its relative path, the record's metadata as user metadata, and no size, time, hash or content type |
| `Listing.DirPage` | storage.go:102-123 | a directory-mode page has one object per record, in arrival order: a directory object for a directory record, the formatted file object otherwise |
| `Listing.PrefixPage` | storage.go:159-170 | a prefix-mode page holds only read-mode file objects and never more objects than records |
| `Listing.FileCountAppend` | storage.go:159-163 | a record appended to the delivered records adds one to the file count exactly when it is not a directory |
| `Listing.Files` | storage.go:159-163 | the records that pass the directory skip number exactly the file records, and are the file records and nothing else |
| `Listing.PrefixPageIsFilesPage` | storage.go:159-170 | a prefix-mode page is the directory-mode page of the file records alone, in order, so it grows by exactly the number of file records |
| `Listing.PagesAreWellShaped` | storage.go:102-123 | no object of either page kind is a directory that carries a size, hash or content type; prefix pages contain no directories |
| `Listing.ExamplePages` | storage.go:102-170 | when the one-level listing delivers `a/x.txt` and the directory `a/y/`, the directory producer yields a file object and a directory object; when the recursive listing delivers `a/x.txt`, `a/y/` and `a/y/z.txt`, the prefix producer yields only the two file objects |
| `Listing.CursorStaysInListing` | storage.go:125-130 | after any run of pages, limit and prefix are unchanged, and iter is the starting token or a token the bucket returned that is not the end token |
| `Listing.PageStatus.constructor` | storage.go:45-53 | the cursor state holds exactly the given limit, prefix and iter |
| `Listing.NextObjectPageByDir` | storage.go:76-131 | sends the directory request for the current cursor; the page becomes the old page followed by the directory-mode page of the delivered records; the cursor advances by the returned token; the outcome is IterateDone iff that token is the end token |
| `Listing.NextObjectPageByPrefix` | storage.go:133-178 | as the directory producer, with the recursive request and the prefix-mode page (directories skipped) |

## Left out

- The framework's object iterator (`NewObjectIterator`): it is not part of this model. So are its pull loop, its terminal state and resuming from a saved token. The model stops at the single page step and the cursor it leaves behind.
- The goroutine, the channel and the mutex of the page producers are concurrency. The model replaces them with the bucket function, whose records arrive in sequence order.
- The error returned by `bucket.List` is written by the worker goroutine into the producer's result while the producer's `return` writes the same variable, with no ordering between the two. The model carries the error in `ListResponse.err` and gives the outcome of the usual interleaving, in which the producer's own return value wins. It does not capture the rare interleaving in which the caller receives the `bucket.List` error.
- Which records a listing depth delivers is the bucket's behaviour: the bucket function is arbitrary, so the model does not promise that a one-level listing omits deeper keys, only what each producer does with the records it is given.
- The `return err` branches after `formatFileObject` inside the page loops are left out. That function always returns a nil error, so `FormatFileObject` is total and those branches cannot be reached.
- `newStorager`'s pair parsing, credential check, SDK configuration and HTTP client setup wrap external libraries. Only the name and the working-directory default are kept.
- `read`, `write`, `delete` and `stat` pass straight through to the SDK with I/O callbacks. `stat` amounts to `FormatFileObject` applied to the record the SDK returns.
- `String()` is string formatting only.
- `ctx` is unused. `time.Time` is an opaque integer.
- Go strings are byte strings, modelled here as character sequences. `Size` is an `int64` that the adapter only copies, so it is an unbounded integer.
- The framework's `Object` setters and mode bits are modelled as `Option` fields and a set of modes. The SDK's handling of the request headers beyond the returned `X-List-Iter` token is not part of this model.
