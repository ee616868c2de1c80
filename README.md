# lens.com: alert selection and the service bundle, in Dafny

This project models two pieces of the lens.com photo-gallery web application and
proves what they promise.

- **Alert selection in the view layer** (`views/data.go`), module `Views`.
  `Data.SetAlert(err)` turns any error into the alert a page shows. The error is
  modelled as its wrap chain, outermost first, and the empty chain stands for the
  nil error. Each link carries its `Error()` text and, when it implements
  `PublicError`, its `Public()` text. `errors.As` is `FirstPublic`: a search from the
  outside in that stops at the first public error. The alert always has level
  `"danger"`. Its message is the outermost public error's `Public()` text when there
  is one, and otherwise the fixed `"something went wrong"`, so the text of an
  internal error never reaches the page. `Data.AlertError(msg)` shows `msg` as it is.
  `Data` is a class and both methods assign only its `alert` field.
- **The functional-options constructor** (`models/services.go`), module `Models`.
  Each `With*` option is a constructor of the datatype `Config`. Whether a given
  call of `gorm.Open` succeeds is an input carried by `WithGorm`: `Opened(id)` for a
  new handle, or the error it reports. The handle the model stores is built from
  the connection string and that `id`, so two successful opens give two distinct
  handles.
  Each service is a record of the values it was built from, so the user service
  remembers the database handle it captured. `Step` and `BuildFrom` specify what the
  options do to a snapshot of the record. The class `Services` does it in place, one
  method per option, each allowed to modify only its own field. `NewServices` loops
  over the options on one fresh record. It returns nil and the error at the first
  failure. Lemmas show that the options compose in order, and that after a
  failure later options cannot change the result. `NewServices` itself returns at
  the first failure. Further lemmas show that only a failing database open fails,
  and that a `WithUser` placed before `WithGorm` gets a nil handle.

`wrappers.dfy` holds the `Option` (nil or a value) and `Result` datatypes.

## Model

| member | source | states |
|---|---|---|
| Views.FirstPublic | views/data.go:32-33 | `errors.As` on a `PublicError` target: the result is the position of a public error with no public error outside it, or none when no error in the chain is public |
| Views.AlertFor | views/data.go:31-44 | the alert has level "danger"; its message is the outermost public error's `Public()` text; with no public error it is exactly "something went wrong"; in every case the message is the generic text or some public error's `Public()` text |
| Views.GenericHidesDetail | views/data.go:38-43 | two errors with no public part give the same alert, Alert("danger", "something went wrong"), whatever their texts |
| Views.WrapNonPublic | views/data.go:33 | wrapping an error in a non-public error does not change the alert |
| Views.InnerErrorsIgnored | views/data.go:33-37 | whatever a public error wraps, public errors included, cannot change the alert: the first match wins |
| Views.Data.constructor | views/data.go:24-29 | template data starts with no alert and the given user, CSRF field and content |
| Views.Data.SetAlert | views/data.go:31-45 | afterwards the alert is non-nil and equals `AlertFor(err)`, level "danger"; user, CSRF field and content are unchanged |
| Views.Data.AlertError | views/data.go:47-52 | afterwards the alert is exactly ("danger", msg); user, CSRF field and content are unchanged |
| Models.Step | models/services.go:13-50 | one option on a record: it fails exactly when it is a `WithGorm` whose open fails, with the open's error; on success it sets its own field to non-nil and leaves every other field as it was; user and gallery services take the handle the record holds at that moment |
| Models.BuildFrom | models/services.go:54-58 | the options run in order on one record and the first failure is the result; a successful build never clears a field and leaves set every field some option wrote |
| Models.Build | models/services.go:52-58 | the build from the zero record: no options give the zero record, and every field an option wrote is set |
| Models.SetFieldsAreWrittenFields | models/services.go:53-58 | after a successful build a field is non-nil exactly when some option wrote it; every other field keeps its zero value |
| Models.UserKeepsEarlierHandle | models/services.go:13-29 | a second database open after `WithUser` replaces the record's handle, while the user service keeps the handle of the first open |
| Models.BuildAppend | models/services.go:53-58 | running options `a` then `b` on one record is running `a + b`, and an error in `a` ends the build |
| Models.AbortSkipsRest | models/services.go:55-57 | once an option fails, the build's result is that error: later options cannot change it |
| Models.BuildFailsIffOpenFails | models/services.go:14-18 | a build fails exactly when some `WithGorm` open fails, and its error is the first such open's error; `WithUser`, `WithGallery`, `WithImage` and `WithLog` never fail |
| Models.FieldUntouched | models/services.go:19-47 | options that do not write a field leave it as it was |
| Models.UserCapturesDb | models/services.go:24-29 | the final user service is the one the last `WithUser` built, on the handle the record held just before it |
| Models.UserBeforeGormHasNoDb | models/services.go:13-29 | a `WithUser` with no `WithGorm` before it builds the user service on a nil handle, even if a database is opened later |
| Models.ApplicationWiring | main.go:26-32 | the application's own option order (log, database, users, galleries, images) wires the opened database into the user and gallery services |
| Models.Services.constructor | models/services.go:53 | a new record is the zero value |
| Models.Services.ApplyGorm | models/services.go:13-22 | a failed open returns its error and leaves the handle as it was; a successful one stores the handle and returns nil; only the handle may change |
| Models.Services.ApplyUser | models/services.go:24-29 | the user service is built on the current handle; no error; only the user field may change |
| Models.Services.ApplyGallery | models/services.go:31-36 | the gallery service is built on the current handle; no error; only the gallery field may change |
| Models.Services.ApplyImage | models/services.go:38-43 | the image service is set; no error; only the image field may change |
| Models.Services.ApplyLog | models/services.go:45-50 | the logger gets the prefix and the flags date, time, microseconds and short file; no error; only the logger field may change |
| Models.Services.Apply | models/services.go:55 | one option runs on the record as `Step` says; on failure the record is unchanged and the error is returned |
| Models.NewServices | models/services.go:52-60 | the result is nil exactly when there is an error; a non-nil result is a fresh record equal to running every option in order from the zero value; an error is the build's first error; no options give the zero record |

## Left out

- `Services.Close`, `DestructiveReset` and `AutoMigrate` (models/services.go:70-88): calls into the database library.
- `gorm.Open` itself and the Postgres driver: a call's outcome is an input of `WithGorm`, and a handle is known only by its connection string and the identity of the open.
- The identity of each open is supplied with its outcome; the model does not itself force two `WithGorm` steps to use different identities.
- `NewUserService`, `NewGalleryService` and `NewImageService` are not part of this model: each service is only a record of its arguments.
- The logger's writer (`os.Stdout`) and everything the logger does; only its prefix and flags are kept.
- The `log.Println(err)` call in `SetAlert` (views/data.go:39): output only.
- `Views.Data.SetAlert`: the alert is a value, not a pointer to a freshly allocated `Alert`; nothing else in Go holds that pointer, so no aliasing is lost.
- `Views.FirstPublic`: errors with their own `As` method and errors that wrap several errors (`Unwrap() []error`) are not modelled; the chain is linear.
- The rendering of the CSRF field as `template.HTML` and of the page content: both are kept as opaque values.
- The authentication subsystem (user service, request middleware, random source) referenced at main.go:13-15 and main.go:44-54 is not part of this model.
- main.go (flags, router, static files, CSRF middleware, server goroutine, signals), hash/hmac.go and exp/main.go: I/O, concurrency, and library wrappers.
