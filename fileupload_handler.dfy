/**
 * The upload and remove endpoints of ui/fileupload/handler.go. The request is reduced to
 * what the handlers read from it: the `id`, `fileId` and `removeUrl` query values, the
 * session ID of the request context and the parsed multipart parts. `utils.RandomID` is the
 * parameter `ids`, giving the ID minted for the part at each position.
 */
module FileUploadHandler {
  import opened Wrappers
  import opened Strings
  import opened FileUploadStore

  /** `handlerConfig`. */
  datatype HandlerConfig = HandlerConfig(maxFileSize: int, allowedTypes: seq<string>, maxFiles: int)

  /** The three `HandlerOption` constructors. */
  datatype HandlerOption =
    | WithMaxFileSize(bytes: int)
    | WithAllowedTypes(types: seq<string>)
    | WithMaxFiles(n: int)

  /** 10 MiB per file, every type, 10 files per component. */
  const DefaultConfig: HandlerConfig := HandlerConfig(10 * 1048576, [], 10)

  /** One option overwrites its own field and leaves the other two as they were. */
  function Apply(cfg: HandlerConfig, opt: HandlerOption): (r: HandlerConfig)
    ensures r.maxFileSize == if opt.WithMaxFileSize? then opt.bytes else cfg.maxFileSize
    ensures r.allowedTypes == if opt.WithAllowedTypes? then opt.types else cfg.allowedTypes
    ensures r.maxFiles == if opt.WithMaxFiles? then opt.n else cfg.maxFiles
  {
    match opt
      case WithMaxFileSize(b) => cfg.(maxFileSize := b)
      case WithAllowedTypes(t) => cfg.(allowedTypes := t)
      case WithMaxFiles(n) => cfg.(maxFiles := n)
  }

  /**
   * The options applied in order, as `UploadHandler` does. Every field of the result is
   * either the starting value or the value of some option of that kind.
   */
  function ApplyAll(cfg: HandlerConfig, opts: seq<HandlerOption>): (r: HandlerConfig)
    ensures (|| r.maxFileSize == cfg.maxFileSize
             || exists k :: 0 <= k < |opts| && opts[k].WithMaxFileSize? && r.maxFileSize == opts[k].bytes)
    ensures (|| r.allowedTypes == cfg.allowedTypes
             || exists k :: 0 <= k < |opts| && opts[k].WithAllowedTypes? && r.allowedTypes == opts[k].types)
    ensures (|| r.maxFiles == cfg.maxFiles
             || exists k :: 0 <= k < |opts| && opts[k].WithMaxFiles? && r.maxFiles == opts[k].n)
    decreases |opts|
  {
    if opts == [] then cfg
    else
      var r := ApplyAll(Apply(cfg, opts[0]), opts[1..]);
      assert forall k :: 0 <= k < |opts| - 1 ==> opts[1..][k] == opts[k + 1];
      r
  }

  /** Applying a list of options in two parts is applying the first part, then the second. */
  lemma {:induction false} ApplyAllSplit(cfg: HandlerConfig, front: seq<HandlerOption>, back: seq<HandlerOption>)
    ensures ApplyAll(cfg, front + back) == ApplyAll(ApplyAll(cfg, front), back)
    decreases |front|
  {
    if front == [] {
      assert front + back == back;
    } else {
      assert (front + back)[0] == front[0];
      assert (front + back)[1..] == front[1..] + back;
      ApplyAllSplit(Apply(cfg, front[0]), front[1..], back);
    }
  }

  /** A field that no option in the list names keeps its value. */
  lemma {:induction false} UnnamedFieldsKept(cfg: HandlerConfig, opts: seq<HandlerOption>)
    ensures (forall k :: 0 <= k < |opts| ==> !opts[k].WithMaxFileSize?) ==> ApplyAll(cfg, opts).maxFileSize == cfg.maxFileSize
    ensures (forall k :: 0 <= k < |opts| ==> !opts[k].WithAllowedTypes?) ==> ApplyAll(cfg, opts).allowedTypes == cfg.allowedTypes
    ensures (forall k :: 0 <= k < |opts| ==> !opts[k].WithMaxFiles?) ==> ApplyAll(cfg, opts).maxFiles == cfg.maxFiles
    decreases |opts|
  {
    if opts != [] {
      UnnamedFieldsKept(Apply(cfg, opts[0]), opts[1..]);
      assert forall k :: 0 <= k < |opts| - 1 ==> opts[1..][k] == opts[k + 1];
    }
  }

  /**
   * Each option overrides only its own field: a field no option names keeps its value, and
   * a field some option names takes the value of the last such option.
   */
  lemma LastOptionWins(cfg: HandlerConfig, opts: seq<HandlerOption>)
    ensures (forall k :: 0 <= k < |opts| ==> !opts[k].WithMaxFileSize?) ==> ApplyAll(cfg, opts).maxFileSize == cfg.maxFileSize
    ensures (forall k :: 0 <= k < |opts| ==> !opts[k].WithAllowedTypes?) ==> ApplyAll(cfg, opts).allowedTypes == cfg.allowedTypes
    ensures (forall k :: 0 <= k < |opts| ==> !opts[k].WithMaxFiles?) ==> ApplyAll(cfg, opts).maxFiles == cfg.maxFiles
    ensures forall k :: ((0 <= k < |opts| && opts[k].WithMaxFileSize? && (forall j :: k < j < |opts| ==> !opts[j].WithMaxFileSize?))
      ==> ApplyAll(cfg, opts).maxFileSize == opts[k].bytes)
    ensures forall k :: ((0 <= k < |opts| && opts[k].WithAllowedTypes? && (forall j :: k < j < |opts| ==> !opts[j].WithAllowedTypes?))
      ==> ApplyAll(cfg, opts).allowedTypes == opts[k].types)
    ensures forall k :: ((0 <= k < |opts| && opts[k].WithMaxFiles? && (forall j :: k < j < |opts| ==> !opts[j].WithMaxFiles?))
      ==> ApplyAll(cfg, opts).maxFiles == opts[k].n)
  {
    UnnamedFieldsKept(cfg, opts);
    forall k | 0 <= k < |opts| {
      AtLastOption(cfg, opts, k);
    }
  }

  /** The option at position `k` decides its field when no later option names that field. */
  lemma AtLastOption(cfg: HandlerConfig, opts: seq<HandlerOption>, k: nat)
    requires k < |opts|
    ensures (opts[k].WithMaxFileSize? && forall j :: k < j < |opts| ==> !opts[j].WithMaxFileSize?)
      ==> ApplyAll(cfg, opts).maxFileSize == opts[k].bytes
    ensures (opts[k].WithAllowedTypes? && forall j :: k < j < |opts| ==> !opts[j].WithAllowedTypes?)
      ==> ApplyAll(cfg, opts).allowedTypes == opts[k].types
    ensures (opts[k].WithMaxFiles? && forall j :: k < j < |opts| ==> !opts[j].WithMaxFiles?)
      ==> ApplyAll(cfg, opts).maxFiles == opts[k].n
  {
    var rest := opts[k + 1..];
    var tail := [opts[k]] + rest;
    assert opts == opts[..k] + tail;
    ApplyAllSplit(cfg, opts[..k], tail);
    assert tail[0] == opts[k] && tail[1..] == rest;
    var mid := Apply(ApplyAll(cfg, opts[..k]), opts[k]);
    assert ApplyAll(cfg, opts) == ApplyAll(mid, rest);
    assert forall j :: 0 <= j < |rest| ==> rest[j] == opts[k + 1 + j];
    UnnamedFieldsKept(mid, rest);
  }

  /** `storeKey`. */
  function StoreKey(sessionId: string, componentId: string): (k: string)
    ensures |k| == |sessionId| + 1 + |componentId| && k[|sessionId|] == ':'
    ensures k[..|sessionId|] == sessionId && k[|sessionId| + 1..] == componentId
  {
    sessionId + ":" + componentId
  }

  /** One part of the `files` form field. */
  datatype FilePart = FilePart(filename: string, size: int, contentType: string)

  /** The three reasons a part is refused. */
  datatype UploadError =
    | TooManyFiles(max: int)
    | TooLarge(filename: string)
    | TypeNotAllowed(filename: string, contentType: string)

  /** The text each refusal contributes to the error patch. */
  function Message(e: UploadError): string
  {
    match e
      case TooManyFiles(max) => "maximum of " + IntToString(max) + " files allowed"
      case TooLarge(name) => name + " exceeds maximum size"
      case TypeNotAllowed(name, ct) => name + ": type " + ct + " not allowed"
  }

  /** An empty list admits every type; otherwise the content type must start with a listed prefix. */
  predicate TypeAllowed(allowedTypes: seq<string>, contentType: string): (ok: bool)
    ensures |allowedTypes| == 0 ==> ok
    ensures "" in allowedTypes ==> ok
    ensures contentType in allowedTypes ==> ok
    ensures |contentType| == 0 ==> (ok <==> |allowedTypes| == 0 || "" in allowedTypes)
  {
    |allowedTypes| == 0 || exists k :: 0 <= k < |allowedTypes| && HasPrefix(contentType, allowedTypes[k])
  }

  /** The inner prefix loop of the type check. */
  method CheckType(allowedTypes: seq<string>, contentType: string) returns (allowed: bool)
    ensures allowed <==> TypeAllowed(allowedTypes, contentType)
  {
    if |allowedTypes| == 0 {
      return true;
    }
    allowed := false;
    var k := 0;
    while k < |allowedTypes|
      invariant k <= |allowedTypes|
      invariant forall j :: 0 <= j < k ==> !HasPrefix(contentType, allowedTypes[j])
    {
      if HasPrefix(contentType, allowedTypes[k]) {
        allowed := true;
        break;
      }
      k := k + 1;
    }
  }

  /** What one request adds to the store and which refusals it reports. */
  datatype Batch = Batch(accepted: seq<FileMeta>, errors: seq<UploadError>)

  /**
   * The validation loop from part `i` on, with `held` files already under the key: stop
   * once the key is full, skip a part that is too large or of a refused type, and keep
   * every other part.
   */
  function Process(cfg: HandlerConfig, held: nat, parts: seq<FilePart>, i: nat, ids: nat -> string): (b: Batch)
    requires i <= |parts|
    ensures |b.accepted| + |b.errors| <= |parts| - i
    ensures (b.accepted == [] && b.errors == []) <==> i == |parts|
    decreases |parts| - i
  {
    if i == |parts| then Batch([], [])
    else if held >= cfg.maxFiles then Batch([], [TooManyFiles(cfg.maxFiles)])
    else if parts[i].size > cfg.maxFileSize then
      var rest := Process(cfg, held, parts, i + 1, ids);
      Batch(rest.accepted, [TooLarge(parts[i].filename)] + rest.errors)
    else if !TypeAllowed(cfg.allowedTypes, parts[i].contentType) then
      var rest := Process(cfg, held, parts, i + 1, ids);
      Batch(rest.accepted, [TypeNotAllowed(parts[i].filename, parts[i].contentType)] + rest.errors)
    else
      var rest := Process(cfg, held + 1, parts, i + 1, ids);
      Batch([FileMeta(ids(i), parts[i].filename, parts[i].size, parts[i].contentType)] + rest.accepted, rest.errors)
  }

  /**
   * The limits hold for what is kept: never more files than `maxFiles` in all (none at all
   * when the key is already full), each within the size limit and of an admitted type.
   */
  lemma {:induction false} AcceptedWithinLimits(cfg: HandlerConfig, held: nat, parts: seq<FilePart>, i: nat, ids: nat -> string)
    requires i <= |parts|
    ensures var b := Process(cfg, held, parts, i, ids);
      && (held >= cfg.maxFiles ==> b.accepted == [])
      && (held < cfg.maxFiles ==> held + |b.accepted| <= cfg.maxFiles)
      && |b.accepted| <= |parts| - i
      && forall k :: 0 <= k < |b.accepted| ==>
           b.accepted[k].size <= cfg.maxFileSize && TypeAllowed(cfg.allowedTypes, b.accepted[k].mimeType)
    decreases |parts| - i
  {
    if i < |parts| && held < cfg.maxFiles {
      if parts[i].size > cfg.maxFileSize || !TypeAllowed(cfg.allowedTypes, parts[i].contentType) {
        AcceptedWithinLimits(cfg, held, parts, i + 1, ids);
      } else {
        AcceptedWithinLimits(cfg, held + 1, parts, i + 1, ids);
      }
    }
  }

  /** A "maximum" refusal, if any, is the last refusal and names the configured maximum. */
  predicate TooManyOnlyLast(errors: seq<UploadError>, max: int)
  {
    forall k :: 0 <= k < |errors| && errors[k].TooManyFiles? ==> k == |errors| - 1 && errors[k].max == max
  }

  /** The "maximum" refusal ends the scan: it is reported at most once, and only as the last refusal. */
  lemma {:induction false} TooManyIsLast(cfg: HandlerConfig, held: nat, parts: seq<FilePart>, i: nat, ids: nat -> string)
    requires i <= |parts|
    ensures TooManyOnlyLast(Process(cfg, held, parts, i, ids).errors, cfg.maxFiles)
    decreases |parts| - i
  {
    if i < |parts| && held < cfg.maxFiles {
      var b := Process(cfg, held, parts, i, ids);
      if parts[i].size > cfg.maxFileSize || !TypeAllowed(cfg.allowedTypes, parts[i].contentType) {
        var rest := Process(cfg, held, parts, i + 1, ids);
        TooManyIsLast(cfg, held, parts, i + 1, ids);
        assert b.errors == [b.errors[0]] + rest.errors && !b.errors[0].TooManyFiles?;
        forall k | 0 <= k < |b.errors| && b.errors[k].TooManyFiles?
          ensures k == |b.errors| - 1 && b.errors[k].max == cfg.maxFiles
        {
          assert b.errors[k] == rest.errors[k - 1];
        }
      } else {
        TooManyIsLast(cfg, held + 1, parts, i + 1, ids);
      }
    }
  }

  /** Parts that all fit, in number, size and type, are all kept under their minted IDs, with no refusal. */
  lemma {:induction false} EverythingFitsIsKept(cfg: HandlerConfig, held: nat, parts: seq<FilePart>, i: nat, ids: nat -> string)
    requires i <= |parts|
    requires held + (|parts| - i) <= cfg.maxFiles
    requires forall k :: i <= k < |parts| ==> parts[k].size <= cfg.maxFileSize && TypeAllowed(cfg.allowedTypes, parts[k].contentType)
    ensures var b := Process(cfg, held, parts, i, ids);
      && b.errors == []
      && |b.accepted| == |parts| - i
      && forall k :: 0 <= k < |b.accepted| ==>
           b.accepted[k] == FileMeta(ids(i + k), parts[i + k].filename, parts[i + k].size, parts[i + k].contentType)
    decreases |parts| - i
  {
    if i < |parts| {
      EverythingFitsIsKept(cfg, held + 1, parts, i + 1, ids);
    }
  }

  /** A kept file carries the ID minted for one of the scanned parts, and that part's name, size and type. */
  predicate Minted(m: FileMeta, parts: seq<FilePart>, i: nat, ids: nat -> string)
  {
    exists j :: i <= j < |parts| && m == FileMeta(ids(j), parts[j].filename, parts[j].size, parts[j].contentType)
  }

  /** Every kept file is minted for one of the parts from `i` on. */
  lemma {:induction false} KeptIdsMinted(cfg: HandlerConfig, held: nat, parts: seq<FilePart>, i: nat, ids: nat -> string)
    requires i <= |parts|
    ensures forall k :: 0 <= k < |Process(cfg, held, parts, i, ids).accepted| ==>
      Minted(Process(cfg, held, parts, i, ids).accepted[k], parts, i, ids)
    decreases |parts| - i
  {
    if i < |parts| && held < cfg.maxFiles {
      var b := Process(cfg, held, parts, i, ids);
      if parts[i].size > cfg.maxFileSize || !TypeAllowed(cfg.allowedTypes, parts[i].contentType) {
        KeptIdsMinted(cfg, held, parts, i + 1, ids);
        assert b.accepted == Process(cfg, held, parts, i + 1, ids).accepted;
        forall k | 0 <= k < |b.accepted|
          ensures Minted(b.accepted[k], parts, i, ids)
        {
          assert Minted(b.accepted[k], parts, i + 1, ids);
          var j :| i + 1 <= j < |parts| && b.accepted[k] == FileMeta(ids(j), parts[j].filename, parts[j].size, parts[j].contentType);
        }
      } else {
        var rest := Process(cfg, held + 1, parts, i + 1, ids);
        KeptIdsMinted(cfg, held + 1, parts, i + 1, ids);
        forall k | 0 <= k < |b.accepted|
          ensures Minted(b.accepted[k], parts, i, ids)
        {
          if k > 0 {
            assert b.accepted[k] == rest.accepted[k - 1];
            assert Minted(rest.accepted[k - 1], parts, i + 1, ids);
            var j :| i + 1 <= j < |parts| && rest.accepted[k - 1] == FileMeta(ids(j), parts[j].filename, parts[j].size, parts[j].contentType);
          }
        }
      }
    }
  }

  /** A part passes the size and type checks. */
  predicate Fits(cfg: HandlerConfig, part: FilePart)
  {
    part.size <= cfg.maxFileSize && TypeAllowed(cfg.allowedTypes, part.contentType)
  }

  /** The parts from `i` on that pass the size and type checks, in order, under their minted IDs. */
  function Admitted(cfg: HandlerConfig, parts: seq<FilePart>, i: nat, ids: nat -> string): (a: seq<FileMeta>)
    requires i <= |parts|
    ensures |a| <= |parts| - i
    decreases |parts| - i
  {
    if i == |parts| then []
    else if Fits(cfg, parts[i]) then [FileMeta(ids(i), parts[i].filename, parts[i].size, parts[i].contentType)] + Admitted(cfg, parts, i + 1, ids)
    else Admitted(cfg, parts, i + 1, ids)
  }

  /** How many more files a key holding `held` may take. */
  function Room(cfg: HandlerConfig, held: nat): nat
  {
    if held >= cfg.maxFiles then 0 else cfg.maxFiles - held
  }

  /**
   * The kept files in closed form: the admitted parts in order, cut to the room left under
   * the key. A too-large or refused part is skipped without ending the scan.
   */
  lemma {:induction false} KeptAreFirstAdmitted(cfg: HandlerConfig, held: nat, parts: seq<FilePart>, i: nat, ids: nat -> string)
    requires i <= |parts|
    ensures var a := Admitted(cfg, parts, i, ids);
      Process(cfg, held, parts, i, ids).accepted == a[..if |a| < Room(cfg, held) then |a| else Room(cfg, held)]
    decreases |parts| - i
  {
    var a := Admitted(cfg, parts, i, ids);
    if i == |parts| || held >= cfg.maxFiles {
    } else if !Fits(cfg, parts[i]) {
      KeptAreFirstAdmitted(cfg, held, parts, i + 1, ids);
    } else {
      KeptAreFirstAdmitted(cfg, held + 1, parts, i + 1, ids);
      var tail := Admitted(cfg, parts, i + 1, ids);
      var n := if |tail| < Room(cfg, held + 1) then |tail| else Room(cfg, held + 1);
      assert a == [a[0]] + tail;
      assert a[..n + 1] == [a[0]] + tail[..n];
    }
  }

  /** What the whole scan yields, given what was kept and refused before part `i` and the scan from `i` on. */
  function Resume(kept: seq<FileMeta>, refused: seq<UploadError>, rest: Batch): Batch
  {
    Batch(kept + rest.accepted, refused + rest.errors)
  }

  /** At a full key the scan stops with one "maximum" refusal. */
  lemma FullStep(cfg: HandlerConfig, held: nat, parts: seq<FilePart>, i: nat, ids: nat -> string,
                 kept: seq<FileMeta>, refused: seq<UploadError>, whole: Batch)
    requires i < |parts| && held >= cfg.maxFiles
    requires whole == Resume(kept, refused, Process(cfg, held, parts, i, ids))
    ensures whole == Batch(kept, refused + [TooManyFiles(cfg.maxFiles)])
  {
    assert kept + [] == kept;
  }

  /** A too-large or refused part adds its refusal and the scan goes on with the next part. */
  lemma RefuseStep(cfg: HandlerConfig, held: nat, parts: seq<FilePart>, i: nat, ids: nat -> string,
                   kept: seq<FileMeta>, refused: seq<UploadError>, whole: Batch, e: UploadError)
    requires i < |parts| && held < cfg.maxFiles
    requires (parts[i].size > cfg.maxFileSize && e == TooLarge(parts[i].filename))
          || (parts[i].size <= cfg.maxFileSize && !TypeAllowed(cfg.allowedTypes, parts[i].contentType)
              && e == TypeNotAllowed(parts[i].filename, parts[i].contentType))
    requires whole == Resume(kept, refused, Process(cfg, held, parts, i, ids))
    ensures whole == Resume(kept, refused + [e], Process(cfg, held, parts, i + 1, ids))
  {
    var rest := Process(cfg, held, parts, i + 1, ids);
    assert refused + ([e] + rest.errors) == (refused + [e]) + rest.errors;
  }

  /** An admitted part becomes the next kept file, under the ID minted for its position. */
  lemma KeepStep(cfg: HandlerConfig, held: nat, parts: seq<FilePart>, i: nat, ids: nat -> string,
                 kept: seq<FileMeta>, refused: seq<UploadError>, whole: Batch)
    requires i < |parts| && held < cfg.maxFiles
    requires parts[i].size <= cfg.maxFileSize && TypeAllowed(cfg.allowedTypes, parts[i].contentType)
    requires whole == Resume(kept, refused, Process(cfg, held, parts, i, ids))
    ensures whole == Resume(kept + [FileMeta(ids(i), parts[i].filename, parts[i].size, parts[i].contentType)], refused,
                            Process(cfg, held + 1, parts, i + 1, ids))
  {
    var meta := FileMeta(ids(i), parts[i].filename, parts[i].size, parts[i].contentType);
    var rest := Process(cfg, held + 1, parts, i + 1, ids);
    assert kept + ([meta] + rest.accepted) == (kept + [meta]) + rest.accepted;
  }

  /** The body of the errors patch: a paragraph joining the messages with "; ", or nothing. */
  function ErrorsHtml(errors: seq<UploadError>): (html: string)
    ensures errors == [] <==> html == ""
  {
    if errors == [] then ""
    else "<p class=\"text-error text-sm\">" + Join(MessagesOf(errors), "; ") + "</p>"
  }

  /** Each refusal's message, in order. */
  function MessagesOf(errors: seq<UploadError>): (msgs: seq<string>)
    ensures |msgs| == |errors|
    ensures forall k :: 0 <= k < |errors| ==> msgs[k] == Message(errors[k])
  {
    seq(|errors|, k requires 0 <= k < |errors| => Message(errors[k]))
  }

  /** The handler's answer: a 400 with a message, or the SSE patches of the file list and the errors. */
  datatype Reply =
    | BadRequest(message: string)
    | Patched(listSelector: string, files: seq<FileMeta>, errorsPatch: Option<(string, string)>)

  /**
   * One kept file goes into the store. `existing` is the list under `key`: the stored one
   * while nothing has been added (`first`), else the one the store was updated to.
   */
  method AddKept(store: Store, key: string, existing: seq<FileMeta>, meta: FileMeta,
                 ghost files0: map<string, seq<FileMeta>>, ghost first: bool)
    returns (next: seq<FileMeta>)
    requires first ==> store.files == files0 && store.List(key) == existing
    requires !first ==> store.files == files0[key := existing]
    modifies store
    ensures next == existing + [meta]
    ensures store.files == files0[key := next]
  {
    store.Add(key, meta);
    next := existing + [meta];
  }

  /**
   * The validation loop of `UploadHandler`: each kept part is added to the store under
   * `key` and appended to `existing`, which starts as the stored list.
   */
  method ProcessUploads(store: Store, cfg: HandlerConfig, key: string, parts: seq<FilePart>, ids: nat -> string)
    returns (existing: seq<FileMeta>, errors: seq<UploadError>)
    modifies store
    ensures var b := Process(cfg, |old(store.List(key))|, parts, 0, ids);
      && existing == old(store.List(key)) + b.accepted
      && errors == b.errors
      && store.files == (if b.accepted == [] then old(store.files) else old(store.files)[key := existing])
  {
    existing := store.List(key);
    errors := [];
    ghost var start := existing;
    ghost var whole := Resume(start, [], Process(cfg, |start|, parts, 0, ids));
    var i := 0;
    while i < |parts|
      invariant i <= |parts| && |start| <= |existing|
      invariant |existing| == |start| ==> existing == start && store.files == old(store.files)
      invariant |existing| > |start| ==> store.files == old(store.files)[key := existing]
      invariant whole == Resume(existing, errors, Process(cfg, |existing|, parts, i, ids))
    {
      var part := parts[i];
      if |existing| >= cfg.maxFiles {
        FullStep(cfg, |existing|, parts, i, ids, existing, errors, whole);
        errors := errors + [TooManyFiles(cfg.maxFiles)];
        break;
      }
      if part.size > cfg.maxFileSize {
        var e := TooLarge(part.filename);
        RefuseStep(cfg, |existing|, parts, i, ids, existing, errors, whole, e);
        errors := errors + [e];
        i := i + 1;
        continue;
      }
      var allowed := CheckType(cfg.allowedTypes, part.contentType);
      if !allowed {
        var e := TypeNotAllowed(part.filename, part.contentType);
        RefuseStep(cfg, |existing|, parts, i, ids, existing, errors, whole, e);
        errors := errors + [e];
        i := i + 1;
        continue;
      }
      var meta := FileMeta(ids(i), part.filename, part.size, part.contentType);
      KeepStep(cfg, |existing|, parts, i, ids, existing, errors, whole);
      existing := AddKept(store, key, existing, meta, old(store.files), |existing| == |start|);
      i := i + 1;
    }
    assert whole == Batch(existing, errors);
    assert start == old(store.List(key));
    assert [] + Process(cfg, |start|, parts, 0, ids).errors == errors;
  }

  /**
   * `UploadHandler` with options `opts`: a missing `id` or an unparsable form is a 400 and
   * touches nothing; otherwise the validated parts are stored and the reply lists the
   * files under the key and clears or fills the errors patch.
   */
  method UploadHandler(store: Store, opts: seq<HandlerOption>, sessionId: string, componentId: string,
                       form: Result<seq<FilePart>, string>, ids: nat -> string)
    returns (reply: Reply)
    modifies store
    ensures componentId == "" ==> reply == BadRequest("missing id query parameter") && store.files == old(store.files)
    ensures componentId != "" && form.Failure? ==> reply == BadRequest("parse form: " + form.error) && store.files == old(store.files)
    ensures componentId != "" && form.Success? ==>
      var key := StoreKey(sessionId, componentId);
      var b := Process(ApplyAll(DefaultConfig, opts), |old(store.List(key))|, form.value, 0, ids);
      && reply == Patched(componentId + "-list", old(store.List(key)) + b.accepted, Some((componentId + "-errors", ErrorsHtml(b.errors))))
      && store.List(key) == old(store.List(key)) + b.accepted
      && forall other :: other != key ==> store.List(other) == old(store.List(other))
  {
    var cfg := ApplyAll(DefaultConfig, opts);
    if componentId == "" {
      return BadRequest("missing id query parameter");
    }
    var key := StoreKey(sessionId, componentId);
    if form.Failure? {
      return BadRequest("parse form: " + form.error);
    }
    var existing, errors := ProcessUploads(store, cfg, key, form.value, ids);
    reply := Patched(componentId + "-list", existing, Some((componentId + "-errors", ErrorsHtml(errors))));
  }

  /**
   * `RemoveHandler`: a missing `id` or `fileId` is a 400 and touches nothing; otherwise the
   * first file with that ID leaves the key's list and the reply lists what remains.
   */
  method RemoveHandler(store: Store, sessionId: string, componentId: string, fileId: string) returns (reply: Reply)
    modifies store
    ensures componentId == "" || fileId == "" ==>
      reply == BadRequest("missing id or fileId query parameter") && store.files == old(store.files)
    ensures componentId != "" && fileId != "" ==>
      var key := StoreKey(sessionId, componentId);
      && store.List(key) == RemoveFirst(old(store.List(key)), fileId)
      && reply == Patched(componentId + "-list", store.List(key), None)
      && forall other :: other != key ==> store.List(other) == old(store.List(other))
  {
    if componentId == "" || fileId == "" {
      return BadRequest("missing id or fileId query parameter");
    }
    var key := StoreKey(sessionId, componentId);
    store.Remove(key, fileId);
    var files := store.List(key);
    reply := Patched(componentId + "-list", files, None);
  }
}
