/**
 * The native Moodstocks SDK as its C header declares it: the error codes,
 * the image admission rule, the barcode format bits and the scanner object
 * with its database file.
 *
 * The recognition engine is opaque. What it would answer (the verdict of
 * opening a database, the records a synchronisation fetches, which reference
 * images a query matches, which barcode a frame holds) is passed to each
 * call as a parameter, so the model says what the library does with every
 * possible answer.
 */
module Sdk {
  import opened Wrappers

  newtype byte = b: int | 0 <= b < 256

  /** The bytes of a C character string, without its terminating NUL. */
  type CString = s: seq<byte> | 0 !in s witness []

  type Path = string

  /** A unique image identifier of the database. */
  type Id = CString

  /** The image records of one database file, by identifier; no identifier appears twice. */
  type Database = s: seq<Id> | forall i, j :: 0 <= i < j < |s| ==> s[i] != s[j] witness []

  // ------------------------------------------------------------------
  // Error codes
  // ------------------------------------------------------------------

  datatype ErrCode =
    | Success       // success
    | Error         // unspecified error
    | Misuse        // invalid use of the library
    | NoPerm        // access permission denied
    | NoFile        // file not found
    | Busy          // database file locked
    | Corrupt       // database file corrupted
    | Empty         // empty database
    | Auth          // authorization denied
    | NoConn        // no internet connection
    | Timeout       // operation timeout
    | Thread        // threading error
    | CredMismatch  // credentials mismatch
    | SlowConn      // internet connection too slow
    | NoRec         // record not found

  /** The codes in the order the C enumeration declares them. */
  const Codes: seq<ErrCode> :=
    [Success, Error, Misuse, NoPerm, NoFile, Busy, Corrupt, Empty,
     Auth, NoConn, Timeout, Thread, CredMismatch, SlowConn, NoRec]

  /** The integer value of a code (`ms_errcode`). */
  function Code(e: ErrCode): (c: int)
    ensures 0 <= c < |Codes| && Codes[c] == e
  {
    match e
    case Success => 0
    case Error => 1
    case Misuse => 2
    case NoPerm => 3
    case NoFile => 4
    case Busy => 5
    case Corrupt => 6
    case Empty => 7
    case Auth => 8
    case NoConn => 9
    case Timeout => 10
    case Thread => 11
    case CredMismatch => 12
    case SlowConn => 13
    case NoRec => 14
  }

  /** The code an integer denotes, if it denotes one. */
  function FromCode(c: int): (r: Option<ErrCode>)
    ensures r.Some? <==> 0 <= c <= 14
  {
    if 0 <= c < |Codes| then Some(Codes[c]) else None
  }

  /** The codes run consecutively from 0 (`MS_SUCCESS`) to 14 (`MS_NOREC`), one integer each. */
  lemma CodesAreConsecutive(c: int)
    requires 0 <= c <= 14
    ensures FromCode(c).Some? && Code(FromCode(c).value) == c
  {
  }

  /** Every code survives the trip through its integer value. */
  lemma CodeRoundTrip(e: ErrCode)
    ensures FromCode(Code(e)) == Some(e)
  {
  }

  // ------------------------------------------------------------------
  // Barcode formats
  // ------------------------------------------------------------------

  const Ean8Format: bv32 := 1 << 0
  const Ean13Format: bv32 := 1 << 1
  const QrCodeFormat: bv32 := 1 << 2

  /** The formats `ms_scanner_decode` knows, combined with bitwise-or. */
  const AllBarcodeFormats: bv32 := Ean8Format | Ean13Format | QrCodeFormat

  predicate SingleBit(x: bv32) {
    x != 0 && x & (x - 1) == 0
  }

  predicate IsBarcodeFormat(f: bv32) {
    f == Ean8Format || f == Ean13Format || f == QrCodeFormat
  }

  /** The barcode formats are distinct single bits, so a mask of them is unambiguous. */
  lemma BarcodeFormatsAreDistinctBits()
    ensures SingleBit(Ean8Format) && SingleBit(Ean13Format) && SingleBit(QrCodeFormat)
    ensures Ean8Format & Ean13Format == 0 && Ean8Format & QrCodeFormat == 0
    ensures Ean13Format & QrCodeFormat == 0
    ensures forall f :: IsBarcodeFormat(f) ==> f & AllBarcodeFormats == f
  {
  }

  /** A decoded barcode: its format and its raw data (`ms_barcode_get_fmt`, `ms_barcode_get_data`). */
  datatype Barcode = Barcode(format: bv32, data: seq<byte>)

  /** Whether a bitwise-or of flags includes the flag `f`. */
  predicate InMask(mask: bv32, f: bv32) {
    mask & f != 0
  }

  /** A barcode `ms_scanner_decode` reports for the mask `formats`: a known format the mask includes. */
  predicate Decodable(formats: bv32, b: Barcode) {
    IsBarcodeFormat(b.format) && InMask(formats, b.format)
  }

  // ------------------------------------------------------------------
  // Images
  // ------------------------------------------------------------------

  datatype PixFmt = Rgb32 | Gray8 | Nv21

  /** Where the origin of the image lies, as the EXIF Orientation tag says. */
  datatype Orientation = UndefinedOri | TopLeft | BottomRight | RightTop | LeftBottom

  /** The EXIF tag value of an orientation. */
  function ExifTag(o: Orientation): (t: int)
    ensures t == 0 || t == 1 || t == 3 || t == 6 || t == 8
  {
    match o
    case UndefinedOri => 0
    case TopLeft => 1
    case BottomRight => 3
    case RightTop => 6
    case LeftBottom => 8
  }

  /** The orientation an EXIF tag value denotes, if it denotes one. */
  function OrientationOfTag(t: int): (r: Option<Orientation>)
    ensures r.Some? <==> t == 0 || t == 1 || t == 3 || t == 6 || t == 8
    ensures r.Some? ==> ExifTag(r.value) == t
  {
    if t == 0 then Some(UndefinedOri)
    else if t == 1 then Some(TopLeft)
    else if t == 3 then Some(BottomRight)
    else if t == 6 then Some(RightTop)
    else if t == 8 then Some(LeftBottom)
    else None
  }

  /** Tag values and orientations are in one-to-one correspondence. */
  lemma OrientationTagRoundTrip(o: Orientation, t: int)
    ensures OrientationOfTag(ExifTag(o)) == Some(o)
    ensures OrientationOfTag(t) == Some(o) <==> t == ExifTag(o)
  {
  }

  /** An image object (`ms_img_t`); the pixel data itself stays with the engine. */
  datatype Image = Image(width: int, height: int, rowBytes: int, format: PixFmt, orientation: Orientation)

  datatype Outcome<T> = Ok(value: T) | Fail(code: ErrCode)

  const MinLongSide := 480
  const MaxLongSide := 1280
  const MaxShortSide := 720

  function Max(a: int, b: int): int { if a < b then b else a }
  function Min(a: int, b: int): int { if a < b then a else b }

  /**
   * `ms_img_new`: the largest dimension must be at least 480 pixels and the
   * image must fit within 1280x720, in either orientation.
   */
  function ImgNew(w: int, h: int, bpr: int, fmt: PixFmt, ori: Orientation): (r: Outcome<Image>)
    ensures r.Fail? ==> r.code == Misuse
    ensures r.Ok? ==> r.value == Image(w, h, bpr, fmt, ori)
    ensures r.Ok? <==>
      (w >= 480 || h >= 480) && ((w <= 1280 && h <= 720) || (w <= 720 && h <= 1280))
  {
    var longSide, shortSide := Max(w, h), Min(w, h);
    if longSide < MinLongSide || longSide > MaxLongSide || shortSide > MaxShortSide then
      Fail(Misuse)
    else
      Ok(Image(w, h, bpr, fmt, ori))
  }

  /** The recommended frame is admitted in both orientations; images just outside the bounds are not. */
  lemma ImgNewBoundaries()
    ensures ImgNew(1280, 720, 5120, Rgb32, TopLeft).Ok?
    ensures ImgNew(720, 1280, 2880, Rgb32, RightTop).Ok?
    ensures ImgNew(480, 360, 480, Gray8, TopLeft).Ok?
    ensures ImgNew(479, 479, 479, Gray8, TopLeft) == Fail(Misuse)
    ensures ImgNew(1281, 720, 5124, Rgb32, TopLeft) == Fail(Misuse)
    ensures ImgNew(1280, 721, 5120, Rgb32, TopLeft) == Fail(Misuse)
    ensures ImgNew(1920, 1080, 7680, Rgb32, TopLeft) == Fail(Misuse)
  {
  }

  // ------------------------------------------------------------------
  // The process-wide database files and the scanner object
  // ------------------------------------------------------------------

  /**
   * The engine's shared state: the database files on disk and, for each
   * path, how many open scanners hold its lock.
   */
  class Store {
    var files: map<Path, Database>
    var locks: multiset<Path>

    constructor (files: map<Path, Database>)
      ensures this.files == files && locks == multiset{}
    {
      this.files := files;
      locks := multiset{};
    }

    /**
     * `ms_scanner_clean`: removes a database file unless an open scanner
     * holds it. `engine` is the file system's answer to the removal (for a
     * path with no file, success or `MS_NOFILE`).
     */
    method Clean(path: Path, engine: ErrCode) returns (err: ErrCode)
      modifies this
      ensures err == (if path in old(locks) then Busy else engine)
      ensures locks == old(locks)
      ensures files == (if err == Success then old(files) - {path} else old(files))
    {
      if path in locks {
        err := Busy;
      } else {
        err := engine;
        if engine == Success {
          files := files - {path};
        }
      }
    }
  }

  datatype HandleState = Unopened | Opened | Closed | Failed(reason: ErrCode) | Deleted

  /**
   * The engine's verdict on whether the query image shows a reference
   * image; offline search and matching both consult it.
   */
  type Recognizer = (Image, Id) -> bool

  /** A scanner object (`ms_scanner_t`). */
  class Scanner {
    const store: Store
    var state: HandleState
    /** The database path of the last successful open. */
    var path: Path

    ghost predicate Valid()
      reads this, store
    {
      state.Opened? ==> path in store.files && path in store.locks
    }

    /** The records of the open database. */
    function Records(): Database
      reads this, store
      requires Valid() && state.Opened?
    {
      store.files[path]
    }

    /** `ms_scanner_new` */
    constructor (store: Store)
      ensures this.store == store && state == Unopened && Valid()
    {
      this.store := store;
      state := Unopened;
      path := "";
    }

    /**
     * `ms_scanner_open`. `engine` is the engine's verdict on the path and
     * credentials when the scanner is not already open.
     */
    method Open(p: Path, engine: ErrCode) returns (err: ErrCode)
      requires Valid() && !state.Deleted?
      modifies this, store
      ensures Valid() && !state.Deleted?
      ensures old(state).Opened? ==>
        err == Misuse && state == old(state) && path == old(path) && unchanged(store)
      ensures !old(state).Opened? ==> err == engine
      ensures !old(state).Opened? && engine == Success ==>
        && state == Opened && path == p
        && store.locks == old(store.locks) + multiset{p}
        && store.files == (if p in old(store.files) then old(store.files) else old(store.files)[p := []])
      ensures !old(state).Opened? && engine != Success ==>
        state == Failed(engine) && path == old(path) && unchanged(store)
    {
      if state.Opened? {
        err := Misuse;
        return;
      }
      err := engine;
      if engine == Success {
        if p !in store.files {
          store.files := store.files[p := []];
        }
        store.locks := store.locks + multiset{p};
        state, path := Opened, p;
      } else {
        state := Failed(engine);
      }
    }

    /** `ms_scanner_close`: releases the database file. */
    method Close() returns (err: ErrCode)
      requires Valid() && !state.Deleted?
      modifies this, store
      ensures Valid() && !state.Deleted? && path == old(path)
      ensures err == (if old(state).Opened? then Success else Misuse)
      ensures old(state).Opened? ==>
        && state == Closed
        && store.locks == old(store.locks) - multiset{path}
        && store.files == old(store.files)
      ensures !old(state).Opened? ==> state == old(state) && unchanged(store)
    {
      if !state.Opened? {
        err := Misuse;
        return;
      }
      store.locks := store.locks - multiset{path};
      state := Closed;
      err := Success;
    }

    /** `ms_scanner_del`: an open scanner is closed implicitly. */
    method Delete()
      requires Valid() && !state.Deleted?
      modifies this, store
      ensures state == Deleted && path == old(path) && store.files == old(store.files)
      ensures store.locks ==
        (if old(state).Opened? then old(store.locks) - multiset{path} else old(store.locks))
    {
      if state.Opened? {
        store.locks := store.locks - multiset{path};
      }
      state := Deleted;
    }

    /**
     * `ms_scanner_sync`. `engine` is the outcome of the HTTP exchange and
     * `fetched` the records it brought back.
     */
    method Sync(engine: ErrCode, fetched: Database) returns (err: ErrCode)
      requires Valid() && !state.Deleted?
      modifies store
      ensures Valid()
      ensures err == (if state.Opened? then engine else Misuse)
      ensures store.locks == old(store.locks)
      ensures store.files == (if err == Success then old(store.files)[path := fetched] else old(store.files))
    {
      if !state.Opened? {
        err := Misuse;
        return;
      }
      err := engine;
      if engine == Success {
        store.files := store.files[path := fetched];
      }
    }

    /**
     * `ms_scanner_info`. `count0` and `ids0` are what the caller's
     * out-variables held before the call; `wantIds` is false when the
     * caller passes NULL for the identifier array.
     */
    method Info(wantIds: bool, count0: int, ids0: seq<Id>) returns (err: ErrCode, count: int, ids: seq<Id>)
      requires Valid() && !state.Deleted?
      ensures !state.Opened? ==> err == Misuse
      ensures state.Opened? ==> err == (if Records() == [] then Empty else Success)
      ensures err != Success ==> count == count0 && ids == ids0
      ensures state.Opened? && err == Success ==> count == |Records()| && count > 0
      ensures state.Opened? && err == Success && wantIds ==> ids == Records() && |ids| == count
      ensures err == Success && !wantIds ==> ids == ids0
    {
      err, count, ids := Misuse, count0, ids0;
      if !state.Opened? {
        return;
      }
      var db := store.files[path];
      if db == [] {
        err := Empty;
        return;
      }
      err, count := Success, |db|;
      if wantIds {
        ids := db;
      }
    }

    /** `ms_scanner_search`: an offline search over the synchronised records. */
    method Search(qry: Image, matches: Recognizer) returns (err: ErrCode, id: Option<Id>)
      requires Valid() && !state.Deleted?
      ensures !state.Opened? ==> err == Misuse && id == None
      ensures state.Opened? ==> err == Success
      ensures state.Opened? && id.Some? ==> id.value in Records() && matches(qry, id.value)
      ensures state.Opened? && id.None? ==> forall x :: x in Records() ==> !matches(qry, x)
    {
      if !state.Opened? {
        return Misuse, None;
      }
      var db := store.files[path];
      if exists x :: x in db && matches(qry, x) {
        var x :| x in db && matches(qry, x);
        return Success, Some(x);
      }
      return Success, None;
    }

    /** `ms_scanner_match`: the query against one reference image; the flag is 1 or 0. */
    method Match(qry: Image, id: Id, matches: Recognizer) returns (err: ErrCode, m: int)
      requires Valid() && !state.Deleted?
      ensures !state.Opened? ==> err == Misuse
      ensures state.Opened? && Records() == [] ==> err == Empty
      ensures state.Opened? && Records() != [] && id !in Records() ==> err == NoRec
      ensures state.Opened? && id in Records() ==>
        err == Success && m == (if matches(qry, id) then 1 else 0)
      ensures err == Success ==> m == 0 || m == 1
    {
      m := 0;
      if !state.Opened? {
        err := Misuse;
        return;
      }
      var db := store.files[path];
      if db == [] {
        err := Empty;
      } else if id !in db {
        err := NoRec;
      } else {
        err := Success;
        if matches(qry, id) {
          m := 1;
        }
      }
    }

    /**
     * `ms_scanner_decode`. `seen` is the barcode the engine reads in the
     * frame, if any; it is reported only when its format was asked for.
     */
    method Decode(qry: Image, formats: bv32, seen: Option<Barcode>) returns (err: ErrCode, barcode: Option<Barcode>)
      requires Valid() && !state.Deleted?
      ensures !state.Opened? ==> err == Misuse && barcode == None
      ensures state.Opened? ==> err == Success
      ensures barcode.Some? ==>
        barcode == seen && Decodable(formats, barcode.value)
      ensures state.Opened? && seen.Some? && Decodable(formats, seen.value) ==> barcode == seen
    {
      if !state.Opened? {
        return Misuse, None;
      }
      err, barcode := Success, None;
      if seen.Some? && Decodable(formats, seen.value) {
        barcode := seen;
      }
    }

    /**
     * `ms_scanner_api_search`: a search on the remote API. `engine` is the
     * outcome of the HTTP request and `remote` the identifier it returned.
     */
    method ApiSearch(qry: Image, engine: ErrCode, remote: Option<Id>) returns (err: ErrCode, id: Option<Id>)
      requires Valid() && !state.Deleted?
      ensures !state.Opened? ==> err == Misuse && id == None
      ensures state.Opened? ==> err == engine
      ensures err != Success ==> id == None
      ensures state.Opened? && engine == Success ==> id == remote
    {
      if !state.Opened? {
        return Misuse, None;
      }
      err := engine;
      id := if engine == Success then remote else None;
    }
  }

  // ------------------------------------------------------------------
  // What a caller can rely on, shown on fresh objects
  // ------------------------------------------------------------------

  /** Opening an open scanner is misuse and leaves it open on the same file. */
  method OpenTwiceIsMisuse(p: Path, q: Path) returns (first: ErrCode, second: ErrCode, stillOpen: bool)
    ensures first == Success && second == Misuse && stillOpen
  {
    var store := new Store(map[]);
    var s := new Scanner(store);
    first := s.Open(p, Success);
    second := s.Open(q, Success);
    stillOpen := s.state.Opened? && s.path == p;
  }

  /** Cleaning a database is refused while a scanner holds it open, and accepted once it is closed. */
  method CleanIsBusyUntilClose(p: Path, db: Database) returns (whileOpen: ErrCode, closed: ErrCode, afterClose: ErrCode, removed: bool)
    ensures whileOpen == Busy && closed == Success && afterClose == Success && removed
  {
    var store := new Store(map[p := db]);
    var s := new Scanner(store);
    var openErr := s.Open(p, Success);
    whileOpen := store.Clean(p, Success);
    closed := s.Close();
    afterClose := store.Clean(p, Success);
    removed := p !in store.files;
  }

  /**
   * After a failed open every other operation is refused; the caller may
   * clean the file and open again.
   */
  method FailedOpenBlocksUse(p: Path, verdict: ErrCode, qry: Image, id: Id, matches: Recognizer)
    returns (openErr: ErrCode, closed: ErrCode, info: ErrCode, searched: ErrCode, matched: ErrCode,
             cleaned: ErrCode, reopened: ErrCode)
    requires verdict != Success
    ensures openErr == verdict && closed == Misuse && info == Misuse && searched == Misuse && matched == Misuse
    ensures cleaned == Success && reopened == Success
  {
    var store := new Store(map[]);
    var s := new Scanner(store);
    openErr := s.Open(p, verdict);
    closed := s.Close();
    var count, ids;
    info, count, ids := s.Info(true, 0, []);
    var found;
    searched, found := s.Search(qry, matches);
    var m;
    matched, m := s.Match(qry, id, matches);
    cleaned := store.Clean(p, Success);
    reopened := s.Open(p, Success);
  }

  /** On an empty database `ms_scanner_info` leaves both out-variables alone; after a sync it lists every record. */
  method InfoAroundSync(p: Path, fetched: Database, count0: int, ids0: seq<Id>)
    returns (before: ErrCode, countBefore: int, idsBefore: seq<Id>, after: ErrCode, countAfter: int, idsAfter: seq<Id>)
    requires fetched != []
    ensures before == Empty && countBefore == count0 && idsBefore == ids0
    ensures after == Success && countAfter == |fetched| && idsAfter == fetched
  {
    var store := new Store(map[]);
    var s := new Scanner(store);
    var openErr := s.Open(p, Success);
    before, countBefore, idsBefore := s.Info(true, count0, ids0);
    var synced := s.Sync(Success, fetched);
    after, countAfter, idsAfter := s.Info(true, count0, ids0);
  }
}
