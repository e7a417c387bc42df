# BOS adapter helpers and segment errors, modelled in Dafny

This project models two small pieces of the go-storage object-storage library.

- **The BOS adapter's helpers** (`services/bos/utils.go`). These cover four things:
  - how `Service.newStorage` builds a `Storage`: the bucket name, and a work directory of `"/"` unless one is supplied;
  - how `getAbsPath` and `getRelPath` translate between go-storage paths and BOS object keys under the work directory;
  - how `formatError` sorts SDK errors into go-storage's shared kinds (permission denied, object not exist, unexpected);
  - how `Storage.formatError` and `Service.formatError` wrap an error with the operation and its context.
- **The segment package's error values** (`pkg/segment/error.go`). These are the five sentinel errors, the `Error` struct, its message and its `Unwrap`.

Modules:

- `GoStrings` (`go_strings.dfy`) holds `strings.HasPrefix` and `strings.TrimPrefix`.
- `Bos` (`bos_utils.dfy`) models `services/bos/utils.go`.
- `SegmentErrors` (`segment_error.dfy`) models `pkg/segment/error.go`.
- `Wrappers` (`wrappers.dfy`) holds `Option`, which stands for a Go nil, and `Result`, which stands for a Go `(value, err)` return.

Go strings are modelled as `seq<char>`. A Go `error` that `formatError` inspects is the datatype `Bos.GoError`, with three cases: `InternalError`, `BceServiceError` with its code, and `OtherError`. Each case carries the text its `Error()` gives. The result of `formatError` is `Bos.Formatted`. That result is either the given error itself (`Passthrough`) or a wrapper (`Wrapped`). A wrapper holds one shared kind and the original's text. It has no field that holds the original error, so the original cannot be unwrapped from it. This is the source's "%w" for the sentinel and "%v" for the original.

`Storage` is a record. In the source its fields are only assigned while `newStorage` builds it. `Bos.NewStorage` is a method that builds that record and then overwrites fields one at a time under the presence flags, as the source does.

In `SegmentErrors`, the segment and part references are type parameters. Their `String()` renderings are function parameters (`showSegment`, `showPart`), and a nil part is `None`.

## Model

| member | source | states |
|---|---|---|
| `GoStrings.TrimPrefix` | services/bos/utils.go:228 | `strings.TrimPrefix`: when `s` starts with the prefix, putting the prefix back in front of the result gives `s`; otherwise the result is `s` |
| `GoStrings.TrimPrefixOfConcat` | services/bos/utils.go:228 | trimming a prefix that was just prepended gives back exactly the suffix |
| `GoStrings.TrimPrefixOnce` | services/bos/utils.go:228 | TrimPrefix removes one copy of the prefix only; a doubled prefix keeps its second copy |
| `Bos.FormatError` | services/bos/utils.go:172-192 | internal errors pass through unchanged, and only they do; BCE code "AccessDenied" maps to permission denied and "NoSuchKey" to object not exist, each iff; every other BCE code and every non-BCE error maps to unexpected; a wrapper carries the original's text |
| `Bos.StorageFormatError` | services/bos/utils.go:146-157 | nil in, nil out, iff; otherwise the storage error names the op, the storage and the paths, and its inner error is the classified one |
| `Bos.ServiceFormatError` | services/bos/utils.go:159-170 | nil in, nil out, iff; otherwise the service error names the op, the service and the name, and keeps the inner error as given |
| `Bos.OnlyStorageErrorsAreClassified` | services/bos/utils.go:146-170 | for a non-internal error the storage variant holds a sentinel wrapper with the original as text only, while the service variant holds the original error itself |
| `Bos.NewStorage` | services/bos/utils.go:194-217 | a parse failure is returned as is; otherwise the storage has the service's client and the supplied bucket name; its work directory is the supplied one if present and "/" if not; its default pairs and features are the supplied ones if flagged and the zero values if not |
| `Bos.WorkPrefix` | services/bos/utils.go:221 | the key prefix is the work directory with one leading "/" removed when present, and the whole work directory otherwise |
| `Bos.AbsPath` | services/bos/utils.go:219-223 | the object key starts with the work prefix, and what follows the prefix is exactly the path |
| `Bos.RelPath` | services/bos/utils.go:225-229 | a key under the work prefix loses that prefix and putting it back restores the key; a key outside it is returned unchanged |
| `Bos.RelPathOfAbsPath` | services/bos/utils.go:219-229 | for every work directory and path, `getRelPath(getAbsPath(path)) == path` |
| `Bos.AbsPathInjective` | services/bos/utils.go:219-223 | distinct paths get distinct object keys |
| `Bos.AbsPathOfRelPath` | services/bos/utils.go:219-229 | the reverse round trip: a key under the prefix is restored exactly; a key outside it comes back with the prefix in front |
| `Bos.RelPathStripsOnce` | services/bos/utils.go:226-229 | a key that repeats the work prefix keeps its second copy; the prefix is removed once only |
| `Bos.DefaultWorkDirIsIdentity` | services/bos/utils.go:200-229 | with the default work directory "/", both `getAbsPath` and `getRelPath` are the identity |
| `Bos.WorkDirExamples` | services/bos/utils.go:219-229 | work dir "/photos/" maps "cat.jpg" to "photos/cat.jpg" and back, and leaves "videos/dog.mp4" unchanged; "//a/" drops only one "/"; "a/" is used as it is |
| `SegmentErrors.KindText` | pkg/segment/error.go:10-14 | the fixed texts of the five sentinel errors (the five constructors of `Kind`); a text begins with "part " exactly for the two part-level kinds and with "segment " exactly for the three segment-level kinds |
| `SegmentErrors.KindTextsDistinct` | pkg/segment/error.go:10-14 | no two of the five segment error kinds share a message text |
| `SegmentErrors.Message` | pkg/segment/error.go:26-31 | the message starts with the op, ": " and the segment's text, and ends with ": " and the wrapped error's text; without a part it is exactly these pieces; with a part, ", " and the part's text follow the segment's text, and nothing else lies between them and the final ": " |
| `SegmentErrors.Unwrap` | pkg/segment/error.go:33-36 | Unwrap returns exactly the stored wrapped error |
| `SegmentErrors.MessageEndsWithUnwrapped` | pkg/segment/error.go:26-36 | the message ends with the text of the error that Unwrap returns |
| `SegmentErrors.AttachingPartInsertsItsText` | pkg/segment/error.go:26-31 | attaching a part changes the message only by inserting ", " and the part's text right after the segment's text |

## Left out

- The multipart segment tracker is not part of this model. That covers part insertion, overlap checks, fulfilment and the manifest. `pkg/segment/error.go` only names `Segment` and `Part`, and their definitions are not part of this model. Only the five error kinds are modelled.
- `New`, `NewServicer`, `NewStorager`, `newServicer` and `newServicerAndStorager` (services/bos/utils.go:54-138) are left out. They parse credentials and endpoints with external packages and build the BOS SDK client.
- `parsePairStorageNew` is generated code that is not part of this model. Its outcome is the `parsed` input of `Bos.NewStorage`.
- `formatFileObject` and `newObject` are left out. They depend on `time.Parse` and on setters of `types.Object` that are not part of this model.
- `Service.String` and `Storage.String` are left out because they are cosmetic formatting.
- The `writeSizeMaximum` constant is left out because no modelled code uses it.
- Go's `errors.Is` and its `%w` unwrapping machinery are left out. Wrapping is shown by the shape of `Bos.Formatted` and by `SegmentErrors.Unwrap`.
- Go strings are byte strings, and `strings.HasPrefix` and `strings.TrimPrefix` compare bytes. Here strings are sequences of characters. The results agree for keys and work directories that are valid UTF-8. Keys that are not valid UTF-8 cannot be represented.
- The texts of go-storage's shared sentinels (`services.ErrPermissionDenied` and the others) are not part of this model. As a result, the full text of a `Wrapped` error is not modelled, only its kind and the original's text.
- The contents of the generated `DefaultStoragePairs` and `StorageFeatures` records are not modelled. They are opaque carriers, and the empty carrier stands for Go's zero value.
- The shared `*bos.Client` pointer is a value handle. The model says which client a storage gets, but not that the service and the storage alias it.
- SegmentErrors.Message: does not model a nil `Err` field. In Go, `e.Err.Error()` would panic on a nil `Err`; the model always has a wrapped error.
- SegmentErrors.Message: does not model Go's rendering of a nil segment pointer. The segment's text is whatever `showSegment` returns.
