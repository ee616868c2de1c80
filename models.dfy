/** The service bundle of package models (services.go) and its functional-options
  * constructor.
  *
  * A configuration step (`ServicesConfig`) is a closure over `*Services` that may
  * fail. Here each `With*` option is a constructor of `Config`, the outcome of
  * `gorm.Open` is part of the `WithGorm` step, and each service is a record of the
  * values it was built from; `Step` and `BuildFrom` say what the steps do to a
  * snapshot of the record, and the `Services` class does it in place.
  */
module Models {
  import opened Wrappers

  /** An open `*gorm.DB`: the connection string it was opened with and the
    * identity of the open that produced it, so two opens give two handles. */
  datatype Db = Db(conInfo: string, id: nat)

  /** The error `gorm.Open` reports. */
  datatype DbError = DbError(message: string)

  /** What one call of `gorm.Open` does: it opens a new handle, `id` telling it
    * apart from every other open, or fails with an error. */
  datatype GormOpen = Opened(id: nat) | OpenFailed(err: DbError)

  /** The user service, remembering the database handle (possibly nil) and the
    * secrets it was built with. */
  datatype UserService = UserService(db: Option<Db>, pepper: string, hmacKey: string)

  /** The gallery service, remembering the database handle (possibly nil) it was built with. */
  datatype GalleryService = GalleryService(db: Option<Db>)

  /** The image service takes no arguments. */
  datatype ImageService = ImageService

  /** A `*log.Logger` writing to standard output with a prefix and flag bits. */
  datatype Logger = Logger(prefix: string, flags: bv32)

  // The flag bits of Go's log package.
  const Ldate: bv32 := 1
  const Ltime: bv32 := 2
  const Lmicroseconds: bv32 := 4
  const Lshortfile: bv32 := 16
  const LstdFlags: bv32 := Ldate | Ltime

  /** The flags `WithLog` gives its logger: date, time with microseconds, and the
    * short file name of the caller. */
  const LogFlags: bv32 := LstdFlags | Lshortfile | Lmicroseconds

  /** One configuration step, one constructor per option. */
  datatype Config =
    | WithGorm(conInfo: string, open: GormOpen)
    | WithUser(pepper: string, hmacKey: string)
    | WithGallery
    | WithImage
    | WithLog(prefix: string)

  /** The fields of `Services`. */
  datatype Field = DbField | UserField | GalleryField | ImageField | LogField

  /** The one field each option assigns. */
  function Writes(c: Config): Field {
    match c
    case WithGorm(_, _) => DbField
    case WithUser(_, _) => UserField
    case WithGallery => GalleryField
    case WithImage => ImageField
    case WithLog(_) => LogField
  }

  /** The contents of a `Services` record; `None` is a nil field. */
  datatype State = State(
    gallery: Option<GalleryService>,
    user: Option<UserService>,
    image: Option<ImageService>,
    db: Option<Db>,
    log: Option<Logger>)

  /** The zero value `var s Services`. */
  const ZeroState := State(None, None, None, None, None)

  /** `a` and `b` hold the same value in field `f`. */
  predicate Agree(a: State, b: State, f: Field) {
    match f
    case DbField => a.db == b.db
    case UserField => a.user == b.user
    case GalleryField => a.gallery == b.gallery
    case ImageField => a.image == b.image
    case LogField => a.log == b.log
  }

  /** `a` and `b` differ at most in field `f`. */
  predicate SameExcept(a: State, b: State, f: Field) {
    forall g: Field :: g != f ==> Agree(a, b, g)
  }

  /** Field `f` of `st` is not nil. */
  predicate IsSet(st: State, f: Field) {
    match f
    case DbField => st.db.Some?
    case UserField => st.user.Some?
    case GalleryField => st.gallery.Some?
    case ImageField => st.image.Some?
    case LogField => st.log.Some?
  }

  /** The step returns an error: only a `WithGorm` whose open fails does. */
  predicate Fails(c: Config) {
    c.WithGorm? && c.open.OpenFailed?
  }

  /** What calling one step on a record gives: the record afterwards, or its error. */
  datatype StepOutcome = Next(state: State) | Failed(err: DbError)

  /** `cfg(&s)` for one option. Only a failing database open is an error, and it is
    * `gorm.Open`'s error; a step that succeeds sets its own field, leaves every
    * other field alone, and a user or gallery service is built from the handle
    * the record holds at that moment. */
  function Step(st: State, c: Config): (r: StepOutcome)
    ensures r.Failed? <==> Fails(c)
    ensures r.Failed? ==> r.err == c.open.err
    ensures r.Next? ==> SameExcept(st, r.state, Writes(c)) && IsSet(r.state, Writes(c))
    ensures r.Next? && c.WithUser? ==> r.state.user.value.db == st.db
    ensures r.Next? && c.WithGallery? ==> r.state.gallery.value.db == st.db
  {
    match c
    case WithGorm(conInfo, open) =>
      if open.OpenFailed? then Failed(open.err) else Next(st.(db := Some(Db(conInfo, open.id))))
    case WithUser(pepper, hmacKey) => Next(st.(user := Some(UserService(st.db, pepper, hmacKey))))
    case WithGallery => Next(st.(gallery := Some(GalleryService(st.db))))
    case WithImage => Next(st.(image := Some(ImageService)))
    case WithLog(prefix) => Next(st.(log := Some(Logger(prefix, LogFlags))))
  }

  /** The steps run in order on one record, stopping at the first error. A build
    * that succeeds never clears a field, and every field some step wrote is set. */
  function BuildFrom(st: State, cfgs: seq<Config>): (r: Result<State, DbError>)
    ensures r.Success? ==> forall f: Field :: IsSet(st, f) ==> IsSet(r.value, f)
    ensures r.Success? ==> forall j :: 0 <= j < |cfgs| ==> IsSet(r.value, Writes(cfgs[j]))
    decreases |cfgs|
  {
    if cfgs == [] then Success(st)
    else match Step(st, cfgs[0])
      case Failed(e) => Failure(e)
      case Next(st') =>
        assert forall j :: 0 < j < |cfgs| ==> cfgs[1..][j - 1] == cfgs[j];
        BuildFrom(st', cfgs[1..])
  }

  /** What `NewServices(cfgs...)` computes, starting from the zero record: with no
    * options it is the zero record, and every field an option wrote is set. */
  function Build(cfgs: seq<Config>): (r: Result<State, DbError>)
    ensures cfgs == [] ==> r == Success(ZeroState)
    ensures r.Success? ==> forall j :: 0 <= j < |cfgs| ==> IsSet(r.value, Writes(cfgs[j]))
  {
    BuildFrom(ZeroState, cfgs)
  }

  /** Continue a partial build with further steps, or keep its error. */
  function Then(r: Result<State, DbError>, more: seq<Config>): Result<State, DbError> {
    match r
    case Success(st) => BuildFrom(st, more)
    case Failure(e) => Failure(e)
  }

  /** Running `a` then `b` is running `a + b`: every step sees the record exactly
    * as the steps before it left it. */
  lemma {:induction false} BuildAppend(st: State, a: seq<Config>, b: seq<Config>)
    ensures BuildFrom(st, a + b) == Then(BuildFrom(st, a), b)
    decreases |a|
  {
    if a == [] {
      assert a + b == b;
    } else {
      assert (a + b)[0] == a[0];
      assert (a + b)[1..] == a[1..] + b;
      match Step(st, a[0])
      case Failed(e) =>
      case Next(st') => BuildAppend(st', a[1..], b);
    }
  }

  /** A step that fails ends the build with its error: no later step matters. */
  lemma {:induction false} AbortSkipsRest(st: State, done: seq<Config>, c: Config, rest: seq<Config>)
    requires BuildFrom(st, done).Success?
    requires Fails(c)
    ensures BuildFrom(st, done + [c] + rest) == Failure(c.open.err)
  {
    BuildAppend(st, done, [c] + rest);
    assert done + [c] + rest == done + ([c] + rest);
    assert ([c] + rest)[0] == c;
  }

  /** `k` is the first step that fails. */
  predicate FirstFailing(cfgs: seq<Config>, k: int) {
    0 <= k < |cfgs| && Fails(cfgs[k]) && forall j :: 0 <= j < k ==> !Fails(cfgs[j])
  }

  /** A build fails exactly when some `WithGorm` open fails, and then with the
    * error of the first such step. */
  lemma {:induction false} BuildFailsIffOpenFails(st: State, cfgs: seq<Config>)
    ensures BuildFrom(st, cfgs).Failure? <==> exists k :: 0 <= k < |cfgs| && Fails(cfgs[k])
    ensures forall k :: FirstFailing(cfgs, k) ==> BuildFrom(st, cfgs) == Failure(cfgs[k].open.err)
    decreases |cfgs|
  {
    if cfgs != [] {
      var tail := cfgs[1..];
      match Step(st, cfgs[0])
      case Failed(e) =>
        assert Fails(cfgs[0]);
      case Next(st') =>
        BuildFailsIffOpenFails(st', tail);
        assert !Fails(cfgs[0]);
        if exists k :: 0 <= k < |cfgs| && Fails(cfgs[k]) {
          var k :| 0 <= k < |cfgs| && Fails(cfgs[k]);
          assert k > 0 && tail[k - 1] == cfgs[k];
        }
        if exists k :: 0 <= k < |tail| && Fails(tail[k]) {
          var k :| 0 <= k < |tail| && Fails(tail[k]);
          assert cfgs[k + 1] == tail[k];
        }
        forall k | FirstFailing(cfgs, k) ensures BuildFrom(st, cfgs) == Failure(cfgs[k].open.err) {
          assert k > 0;
          assert FirstFailing(tail, k - 1) by {
            forall j | 0 <= j < k - 1 ensures !Fails(tail[j]) {
              assert tail[j] == cfgs[j + 1];
            }
          }
        }
    }
  }

  /** Steps that do not write field `f` leave it as it was. */
  lemma {:induction false} FieldUntouched(st: State, cfgs: seq<Config>, f: Field)
    requires forall j :: 0 <= j < |cfgs| ==> Writes(cfgs[j]) != f
    ensures BuildFrom(st, cfgs).Success? ==> Agree(st, BuildFrom(st, cfgs).value, f)
    decreases |cfgs|
  {
    if cfgs != [] {
      match Step(st, cfgs[0])
      case Failed(e) =>
      case Next(st') =>
        assert Writes(cfgs[0]) != f;
        assert forall j :: 0 <= j < |cfgs[1..]| ==> cfgs[1..][j] == cfgs[j + 1];
        FieldUntouched(st', cfgs[1..], f);
    }
  }

  /** The user service of a finished build is the one the last `WithUser` built,
    * from the database handle the record held just before that step. */
  lemma UserCapturesDb(cfgs: seq<Config>, k: nat)
    requires k < |cfgs| && cfgs[k].WithUser?
    requires forall j :: k < j < |cfgs| ==> !cfgs[j].WithUser?
    requires Build(cfgs).Success?
    ensures Build(cfgs[..k]).Success?
    ensures Build(cfgs).value.user
         == Some(UserService(Build(cfgs[..k]).value.db, cfgs[k].pepper, cfgs[k].hmacKey))
  {
    var pre, rest := cfgs[..k], cfgs[k + 1..];
    assert cfgs == pre + ([cfgs[k]] + rest);
    BuildAppend(ZeroState, pre, [cfgs[k]] + rest);
    assert Build(pre).Success?;
    var mid := Build(pre).value;
    var after := mid.(user := Some(UserService(mid.db, cfgs[k].pepper, cfgs[k].hmacKey)));
    assert ([cfgs[k]] + rest)[1..] == rest;
    assert Build(cfgs) == BuildFrom(after, rest);
    forall j | 0 <= j < |rest| ensures Writes(rest[j]) != UserField {
      assert rest[j] == cfgs[k + 1 + j];
    }
    FieldUntouched(after, rest, UserField);
  }

  /** A `WithUser` that runs before any `WithGorm` builds the user service on a
    * nil handle, and a later database open does not reach it. */
  lemma UserBeforeGormHasNoDb(cfgs: seq<Config>, k: nat)
    requires k < |cfgs| && cfgs[k].WithUser?
    requires forall j :: k < j < |cfgs| ==> !cfgs[j].WithUser?
    requires forall j :: 0 <= j < k ==> !cfgs[j].WithGorm?
    requires Build(cfgs).Success?
    ensures Build(cfgs).value.user == Some(UserService(None, cfgs[k].pepper, cfgs[k].hmacKey))
  {
    UserCapturesDb(cfgs, k);
    var pre := cfgs[..k];
    forall j | 0 <= j < |pre| ensures Writes(pre[j]) != DbField {
      assert pre[j] == cfgs[j];
    }
    FieldUntouched(ZeroState, pre, DbField);
  }

  /** A build that succeeds has set exactly the fields some option wrote; every
    * other field keeps its zero value. */
  lemma SetFieldsAreWrittenFields(cfgs: seq<Config>, f: Field)
    requires Build(cfgs).Success?
    ensures IsSet(Build(cfgs).value, f) <==> exists j :: 0 <= j < |cfgs| && Writes(cfgs[j]) == f
  {
    if forall j :: 0 <= j < |cfgs| ==> Writes(cfgs[j]) != f {
      FieldUntouched(ZeroState, cfgs, f);
    }
  }

  /** Opening the database a second time after `WithUser` replaces the record's
    * handle, but the user service keeps the handle of the first open. */
  lemma UserKeepsEarlierHandle(conInfo: string, pepper: string, hmacKey: string)
    ensures var r := Build([WithGorm(conInfo, Opened(1)), WithUser(pepper, hmacKey), WithGorm(conInfo, Opened(2))]);
      r.Success? && r.value.db == Some(Db(conInfo, 2))
      && r.value.user == Some(UserService(Some(Db(conInfo, 1)), pepper, hmacKey))
  {
    var cfgs := [WithGorm(conInfo, Opened(1)), WithUser(pepper, hmacKey), WithGorm(conInfo, Opened(2))];
    var s1 := ZeroState.(db := Some(Db(conInfo, 1)));
    var s2 := s1.(user := Some(UserService(s1.db, pepper, hmacKey)));
    var s3 := s2.(db := Some(Db(conInfo, 2)));
    assert cfgs[1..] == [WithUser(pepper, hmacKey), WithGorm(conInfo, Opened(2))];
    assert cfgs[1..][1..] == [WithGorm(conInfo, Opened(2))];
    assert BuildFrom(s2, [WithGorm(conInfo, Opened(2))]) == Success(s3);
    assert BuildFrom(s1, cfgs[1..]) == Success(s3);
  }

  /** The bundle the application starts with (log, database, users, galleries,
    * images, in that order): when the database opens, the user and gallery
    * services are both wired to it. */
  lemma ApplicationWiring(prefix: string, conInfo: string, id: nat, pepper: string, hmacKey: string)
    ensures var db := Some(Db(conInfo, id));
      Build([WithLog(prefix), WithGorm(conInfo, Opened(id)), WithUser(pepper, hmacKey), WithGallery, WithImage])
      == Success(State(Some(GalleryService(db)), Some(UserService(db, pepper, hmacKey)),
                       Some(ImageService), db, Some(Logger(prefix, LogFlags))))
  {
    var cfgs := [WithLog(prefix), WithGorm(conInfo, Opened(id)), WithUser(pepper, hmacKey), WithGallery, WithImage];
    var s1 := ZeroState.(log := Some(Logger(prefix, LogFlags)));
    var s2 := s1.(db := Some(Db(conInfo, id)));
    var s3 := s2.(user := Some(UserService(s2.db, pepper, hmacKey)));
    var s4 := s3.(gallery := Some(GalleryService(s3.db)));
    var s5 := s4.(image := Some(ImageService));
    assert cfgs[1..] == [WithGorm(conInfo, Opened(id)), WithUser(pepper, hmacKey), WithGallery, WithImage];
    assert cfgs[1..][1..] == [WithUser(pepper, hmacKey), WithGallery, WithImage];
    assert cfgs[1..][1..][1..] == [WithGallery, WithImage];
    assert cfgs[1..][1..][1..][1..] == [WithImage];
    assert BuildFrom(s4, [WithImage]) == Success(s5);
    assert BuildFrom(s3, [WithGallery, WithImage]) == Success(s5);
    assert BuildFrom(s2, [WithUser(pepper, hmacKey), WithGallery, WithImage]) == Success(s5);
    assert BuildFrom(s1, cfgs[1..]) == Success(s5);
  }

  /** The record `NewServices` fills in, one field per service plus the database
    * handle; `None` is nil. */
  class Services {
    var gallery: Option<GalleryService>
    var user: Option<UserService>
    var image: Option<ImageService>
    var db: Option<Db>
    var log: Option<Logger>

    /** The fields as one value. */
    function Snapshot(): State
      reads this
    {
      State(gallery, user, image, db, log)
    }

    /** The zero record. */
    constructor ()
      ensures Snapshot() == ZeroState
    {
      gallery, user, image, db, log := None, None, None, None, None;
    }

    /** `WithGorm(conInfo)`: opens the database and stores the handle; when the open
      * fails, returns its error and leaves the handle as it was. */
    method ApplyGorm(conInfo: string, open: GormOpen) returns (err: Option<DbError>)
      modifies this`db
      ensures open.OpenFailed? ==> err == Some(open.err) && db == old(db)
      ensures open.Opened? ==> err == None && db == Some(Db(conInfo, open.id))
    {
      if open.OpenFailed? {
        return Some(open.err);
      }
      db := Some(Db(conInfo, open.id));
      return None;
    }

    /** `WithUser(pepper, hmacKey)`: builds the user service on the current handle. */
    method ApplyUser(pepper: string, hmacKey: string) returns (err: Option<DbError>)
      modifies this`user
      ensures err == None && user == Some(UserService(db, pepper, hmacKey))
    {
      user := Some(UserService(db, pepper, hmacKey));
      return None;
    }

    /** `WithGallery()`: builds the gallery service on the current handle. */
    method ApplyGallery() returns (err: Option<DbError>)
      modifies this`gallery
      ensures err == None && gallery == Some(GalleryService(db))
    {
      gallery := Some(GalleryService(db));
      return None;
    }

    /** `WithImage()`: builds the image service. */
    method ApplyImage() returns (err: Option<DbError>)
      modifies this`image
      ensures err == None && image == Some(ImageService)
    {
      image := Some(ImageService);
      return None;
    }

    /** `WithLog(prefix)`: builds the logger. */
    method ApplyLog(prefix: string) returns (err: Option<DbError>)
      modifies this`log
      ensures err == None && log == Some(Logger(prefix, LogFlags))
    {
      log := Some(Logger(prefix, LogFlags));
      return None;
    }

    /** `cfg(&s)`: runs one option on this record, as `Step` describes. */
    method Apply(c: Config) returns (err: Option<DbError>)
      modifies this
      ensures match Step(old(Snapshot()), c)
        case Next(st) => err == None && Snapshot() == st
        case Failed(e) => err == Some(e) && Snapshot() == old(Snapshot())
    {
      match c
      case WithGorm(conInfo, open) => err := ApplyGorm(conInfo, open);
      case WithUser(pepper, hmacKey) => err := ApplyUser(pepper, hmacKey);
      case WithGallery => err := ApplyGallery();
      case WithImage => err := ApplyImage();
      case WithLog(prefix) => err := ApplyLog(prefix);
    }
  }

  /** `NewServices(cfgs...)`: applies the options in order to one fresh record and
    * returns it, or nil with the first error, applying no option after it. With no
    * options the record is the zero value. */
  method NewServices(cfgs: seq<Config>) returns (s: Services?, err: Option<DbError>)
    ensures s == null <==> err.Some?
    ensures s != null ==> fresh(s) && Build(cfgs) == Success(s.Snapshot())
    ensures err.Some? ==> Build(cfgs) == Failure(err.value)
    ensures cfgs == [] ==> s != null && s.Snapshot() == ZeroState
  {
    var svc := new Services();
    for i := 0 to |cfgs|
      invariant BuildFrom(svc.Snapshot(), cfgs[i..]) == Build(cfgs)
    {
      assert cfgs[i..][0] == cfgs[i] && cfgs[i..][1..] == cfgs[i + 1..];
      var e := svc.Apply(cfgs[i]);
      if e.Some? {
        return null, e;
      }
    }
    return svc, None;
  }
}
