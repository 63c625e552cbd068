/**
 The messages of the control socket, `Request` and `Response`, and what sending one over it means.
 */
module Messages {
  import opened Options
  import opened Postcard
  import opened Protocol

  const KEY_LEN := 32
  const SALT_LEN := 16

  datatype KdfParams = KdfParams(mCostKib: nat, tCost: nat, pCost: nat)

  /** Strings are held as their UTF-8 bytes. */
  datatype Request =
    | Lock(collection: Option<Bytes>)
    | Status
    | Reload
    | UnlockWithKey(name: Bytes, key: Bytes, pin: bool)
    | ChangeKey(name: Bytes, oldKey: Bytes, newSalt: Bytes, newKdf: KdfParams, newKey: Bytes)

  datatype CollectionStatus = CollectionStatus(id: Bytes, title: Bytes, locked: bool, items: nat, warning: Option<Bytes>)

  datatype Response =
    | Done
    | Report(collections: seq<CollectionStatus>, uptimeSecs: nat, aliasesError: Option<Bytes>)
    | Failure(message: Bytes)

  const KDF := Pair(U32, Pair(U32, U32))
  const KEY := Fixed(KEY_LEN)
  const UNLOCK_WITH_KEY := Pair(Text, Pair(KEY, Bool))
  const CHANGE_KEY := Pair(Text, Pair(KEY, Pair(Fixed(SALT_LEN), Pair(KDF, KEY))))
  const REQUEST := Enum([Opt(Text), Unit, Unit, UNLOCK_WITH_KEY, CHANGE_KEY])
  const COLLECTION_STATUS := Pair(Text, Pair(Text, Pair(Bool, Pair(U64, Opt(Text)))))
  const REPORT := Pair(List(COLLECTION_STATUS), Pair(U64, Opt(Text)))
  const RESPONSE := Enum([Unit, REPORT, Text])

  // ---- one level of a shape at a time ----

  lemma {:induction false} PairFits(fst: Shape, snd: Shape, v: Val)
    ensures Fits(Pair(fst, snd), v) <==> v.Both? && Fits(fst, v.left) && Fits(snd, v.right)
  {
  }

  lemma {:induction false} ChoiceFits(cases: seq<Shape>, k: nat, arg: Val)
    ensures Fits(Enum(cases), Choice(k, arg)) <==> k < |cases| && Fits(cases[k], arg)
  {
  }

  lemma {:induction false} Limits()
    ensures Limit(5, 15) == 0x1_0000_0000 && Limit(10, 1) == 0x1_0000_0000_0000_0000
  {
    assert Limit(3, 15) == 16 * 128 * 128;
    assert Limit(3, 1) == 2 * 128 * 128;
    assert Limit(5, 1) == 2 * 128 * 128 * 128 * 128;
    assert Limit(7, 1) == 2 * 128 * 128 * 128 * 128 * 128 * 128;
    assert Limit(9, 1) == 2 * 128 * 128 * 128 * 128 * 128 * 128 * 128 * 128;
  }

  predicate TextOk(t: Bytes) {
    Utf8(t) && |t| < 0x1_0000_0000_0000_0000
  }

  lemma {:induction false} TextFits(v: Val)
    ensures Fits(Text, v) <==> v.Str? && TextOk(v.utf8)
  {
    Limits();
  }

  lemma {:induction false} NumFits(v: Val)
    ensures Fits(U32, v) <==> v.Num? && v.num < 0x1_0000_0000
    ensures Fits(U64, v) <==> v.Num? && v.num < 0x1_0000_0000_0000_0000
  {
    Limits();
  }

  // ---- optional text ----

  function OptVal(t: Option<Bytes>): Val {
    if t.Some? then Present(Str(t.value)) else Absent
  }

  predicate IsOpt(v: Val) {
    v.Absent? || (v.Present? && v.val.Str?)
  }

  function OptOf(v: Val): Option<Bytes>
    requires IsOpt(v)
  {
    if v.Present? then Some(v.val.utf8) else None
  }

  predicate OptOk(t: Option<Bytes>) {
    t.Some? ==> TextOk(t.value)
  }

  lemma {:induction false} OptFits(v: Val)
    ensures Fits(Opt(Text), v) <==> IsOpt(v) && OptOk(OptOf(v))
  {
    if v.Present? { TextFits(v.val); }
  }

  // ---- requests ----

  /** What the field types of a `Request` allow: UTF-8 strings, whole keys and salts, 32-bit costs. */
  predicate RequestOk(r: Request) {
    match r
    case Lock(collection) => OptOk(collection)
    case Status => true
    case Reload => true
    case UnlockWithKey(name, key, _) => TextOk(name) && |key| == KEY_LEN
    case ChangeKey(name, oldKey, newSalt, kdf, newKey) =>
      TextOk(name) && |oldKey| == KEY_LEN && |newSalt| == SALT_LEN && |newKey| == KEY_LEN && KdfOk(kdf)
  }

  predicate KdfOk(kdf: KdfParams) {
    kdf.mCostKib < 0x1_0000_0000 && kdf.tCost < 0x1_0000_0000 && kdf.pCost < 0x1_0000_0000
  }

  function KdfVal(kdf: KdfParams): Val {
    Both(Num(kdf.mCostKib), Both(Num(kdf.tCost), Num(kdf.pCost)))
  }

  predicate IsKdf(v: Val) {
    v.Both? && v.left.Num? && v.right.Both? && v.right.left.Num? && v.right.right.Num?
  }

  function KdfOf(v: Val): KdfParams
    requires IsKdf(v)
  {
    KdfParams(v.left.num, v.right.left.num, v.right.right.num)
  }

  lemma {:induction false} KdfFits(v: Val)
    ensures Fits(KDF, v) <==> IsKdf(v) && KdfOk(KdfOf(v))
  {
    PairFits(U32, Pair(U32, U32), v);
    if v.Both? {
      NumFits(v.left);
      PairFits(U32, U32, v.right);
      if v.right.Both? {
        NumFits(v.right.left);
        NumFits(v.right.right);
      }
    }
  }

  function UnlockVal(name: Bytes, key: Bytes, pin: bool): Val {
    Both(Str(name), Both(Raw(key), Flag(pin)))
  }

  predicate IsUnlock(v: Val) {
    v.Both? && v.left.Str? && v.right.Both? && v.right.left.Raw? && v.right.right.Flag?
  }

  function UnlockOf(v: Val): Request
    requires IsUnlock(v)
  {
    UnlockWithKey(v.left.utf8, v.right.left.bytes, v.right.right.on)
  }

  lemma {:induction false} UnlockFits(v: Val)
    ensures Fits(UNLOCK_WITH_KEY, v) <==> IsUnlock(v) && RequestOk(UnlockOf(v))
  {
    PairFits(Text, Pair(KEY, Bool), v);
    if v.Both? {
      TextFits(v.left);
      PairFits(KEY, Bool, v.right);
    }
  }

  function ChangeVal(name: Bytes, oldKey: Bytes, newSalt: Bytes, kdf: KdfParams, newKey: Bytes): Val {
    Both(Str(name), Both(Raw(oldKey), Both(Raw(newSalt), Both(KdfVal(kdf), Raw(newKey)))))
  }

  predicate IsChange(v: Val) {
    v.Both? && v.left.Str? && v.right.Both? && v.right.left.Raw? && v.right.right.Both? && v.right.right.left.Raw? &&
    v.right.right.right.Both? && IsKdf(v.right.right.right.left) && v.right.right.right.right.Raw?
  }

  function ChangeOf(v: Val): Request
    requires IsChange(v)
  {
    var tail := v.right.right;
    ChangeKey(v.left.utf8, v.right.left.bytes, tail.left.bytes, KdfOf(tail.right.left), tail.right.right.bytes)
  }

  lemma {:induction false} ChangeTailFits(v: Val)
    ensures Fits(Pair(Fixed(SALT_LEN), Pair(KDF, KEY)), v) <==>
              v.Both? && v.left.Raw? && |v.left.bytes| == SALT_LEN && v.right.Both? && Fits(KDF, v.right.left) && Fits(KEY, v.right.right)
  {
    PairFits(Fixed(SALT_LEN), Pair(KDF, KEY), v);
    if v.Both? { PairFits(KDF, KEY, v.right); }
  }

  lemma {:induction false} ChangeFits(v: Val)
    ensures Fits(CHANGE_KEY, v) <==> IsChange(v) && RequestOk(ChangeOf(v))
  {
    PairFits(Text, Pair(KEY, Pair(Fixed(SALT_LEN), Pair(KDF, KEY))), v);
    if v.Both? {
      TextFits(v.left);
      PairFits(KEY, Pair(Fixed(SALT_LEN), Pair(KDF, KEY)), v.right);
      if v.right.Both? {
        ChangeTailFits(v.right.right);
        if v.right.right.Both? && v.right.right.right.Both? { KdfFits(v.right.right.right.left); }
      }
    }
  }

  function RequestVal(r: Request): Val {
    match r
    case Lock(collection) => Choice(0, OptVal(collection))
    case Status => Choice(1, Nothing)
    case Reload => Choice(2, Nothing)
    case UnlockWithKey(name, key, pin) => Choice(3, UnlockVal(name, key, pin))
    case ChangeKey(name, oldKey, newSalt, kdf, newKey) => Choice(4, ChangeVal(name, oldKey, newSalt, kdf, newKey))
  }

  function RequestOf(v: Val): Option<Request> {
    if !v.Choice? then None
    else if v.k == 0 && IsOpt(v.arg) then Some(Lock(OptOf(v.arg)))
    else if v.k == 1 && v.arg.Nothing? then Some(Status)
    else if v.k == 2 && v.arg.Nothing? then Some(Reload)
    else if v.k == 3 && IsUnlock(v.arg) then Some(UnlockOf(v.arg))
    else if v.k == 4 && IsChange(v.arg) then Some(ChangeOf(v.arg)) else None
  }

  lemma {:induction false} RequestCase(k: nat, arg: Val)
    ensures Fits(REQUEST, Choice(k, arg)) <==> RequestOf(Choice(k, arg)).Some? && RequestOk(RequestOf(Choice(k, arg)).value)
  {
    ChoiceFits(REQUEST.cases, k, arg);
    if k == 0 {
      OptFits(arg);
    } else if k == 3 {
      UnlockFits(arg);
    } else if k == 4 {
      ChangeFits(arg);
    }
  }

  /** The values of the request shape are exactly the requests. */
  lemma {:induction false} RequestsFit(r: Request)
    requires RequestOk(r)
    ensures Fits(REQUEST, RequestVal(r)) && RequestOf(RequestVal(r)) == Some(r)
  {
    RequestCase(RequestVal(r).k, RequestVal(r).arg);
  }

  lemma {:induction false} FitsIsRequest(v: Val)
    requires Fits(REQUEST, v)
    ensures RequestOf(v).Some? && RequestOk(RequestOf(v).value) && RequestVal(RequestOf(v).value) == v
  {
    RequestCase(v.k, v.arg);
  }

  lemma {:induction false} PairWellFormed(fst: Shape, snd: Shape)
    requires WellFormed(fst) && WellFormed(snd)
    ensures WellFormed(Pair(fst, snd))
  {
  }

  lemma {:induction false} EnumWellFormed(cases: seq<Shape>)
    requires |cases| <= 5 && forall k :: 0 <= k < |cases| ==> WellFormed(cases[k])
    ensures WellFormed(Enum(cases))
  {
    Limits();
  }

  lemma {:induction false} RequestWellFormed()
    ensures WellFormed(REQUEST)
  {
    PairWellFormed(U32, U32);
    PairWellFormed(U32, Pair(U32, U32));
    PairWellFormed(KDF, KEY);
    PairWellFormed(Fixed(SALT_LEN), Pair(KDF, KEY));
    PairWellFormed(KEY, Pair(Fixed(SALT_LEN), Pair(KDF, KEY)));
    PairWellFormed(Text, Pair(KEY, Pair(Fixed(SALT_LEN), Pair(KDF, KEY))));
    PairWellFormed(KEY, Bool);
    PairWellFormed(Text, Pair(KEY, Bool));
    EnumWellFormed(REQUEST.cases);
  }

  // ---- responses ----

  predicate StatusOk(c: CollectionStatus) {
    TextOk(c.id) && TextOk(c.title) && c.items < 0x1_0000_0000_0000_0000 && OptOk(c.warning)
  }

  predicate StatusesOk(cs: seq<CollectionStatus>) {
    |cs| < 0x1_0000_0000_0000_0000 && forall i :: 0 <= i < |cs| ==> StatusOk(cs[i])
  }

  predicate ResponseOk(r: Response) {
    match r
    case Done => true
    case Report(cs, uptime, error) => StatusesOk(cs) && uptime < 0x1_0000_0000_0000_0000 && OptOk(error)
    case Failure(message) => TextOk(message)
  }

  function StatusVal(c: CollectionStatus): Val {
    Both(Str(c.id), Both(Str(c.title), Both(Flag(c.locked), Both(Num(c.items), OptVal(c.warning)))))
  }

  predicate IsStatus(v: Val) {
    v.Both? && v.left.Str? && v.right.Both? && v.right.left.Str? && v.right.right.Both? && v.right.right.left.Flag? &&
    v.right.right.right.Both? && v.right.right.right.left.Num? && IsOpt(v.right.right.right.right)
  }

  function StatusOf(v: Val): CollectionStatus
    requires IsStatus(v)
  {
    var tail := v.right.right;
    CollectionStatus(v.left.utf8, v.right.left.utf8, tail.left.on, tail.right.left.num, OptOf(tail.right.right))
  }

  lemma {:induction false} StatusTailFits(v: Val)
    ensures Fits(Pair(Bool, Pair(U64, Opt(Text))), v) <==>
              v.Both? && v.left.Flag? && v.right.Both? && v.right.left.Num? && v.right.left.num < 0x1_0000_0000_0000_0000 &&
              IsOpt(v.right.right) && OptOk(OptOf(v.right.right))
  {
    PairFits(Bool, Pair(U64, Opt(Text)), v);
    if v.Both? {
      PairFits(U64, Opt(Text), v.right);
      if v.right.Both? {
        NumFits(v.right.left);
        OptFits(v.right.right);
      }
    }
  }

  lemma {:induction false} StatusFits(v: Val)
    ensures Fits(COLLECTION_STATUS, v) <==> IsStatus(v) && StatusOk(StatusOf(v))
  {
    PairFits(Text, Pair(Text, Pair(Bool, Pair(U64, Opt(Text)))), v);
    if v.Both? {
      TextFits(v.left);
      PairFits(Text, Pair(Bool, Pair(U64, Opt(Text))), v.right);
      if v.right.Both? {
        TextFits(v.right.left);
        StatusTailFits(v.right.right);
      }
    }
  }

  function StatusVals(cs: seq<CollectionStatus>): (vs: seq<Val>)
    ensures |vs| == |cs| && forall i :: 0 <= i < |cs| ==> vs[i] == StatusVal(cs[i])
  {
    seq(|cs|, (i: nat) requires i < |cs| => StatusVal(cs[i]))
  }

  predicate AreStatuses(vs: seq<Val>) {
    forall i :: 0 <= i < |vs| ==> IsStatus(vs[i])
  }

  function StatusesOf(vs: seq<Val>): (cs: seq<CollectionStatus>)
    requires AreStatuses(vs)
    ensures |cs| == |vs| && forall i :: 0 <= i < |vs| ==> cs[i] == StatusOf(vs[i])
  {
    seq(|vs|, (i: nat) requires i < |vs| => StatusOf(vs[i]))
  }

  lemma {:induction false} StatusesIso(cs: seq<CollectionStatus>)
    ensures AreStatuses(StatusVals(cs)) && StatusesOf(StatusVals(cs)) == cs
  {
    forall i | 0 <= i < |cs| ensures IsStatus(StatusVals(cs)[i]) && StatusOf(StatusVals(cs)[i]) == cs[i] {
      assert StatusVals(cs)[i] == StatusVal(cs[i]);
    }
  }

  lemma {:induction false} StatusesBack(vs: seq<Val>)
    requires AreStatuses(vs)
    ensures StatusVals(StatusesOf(vs)) == vs
  {
    forall i | 0 <= i < |vs| ensures StatusVals(StatusesOf(vs))[i] == vs[i] {
      assert StatusVal(StatusOf(vs[i])) == vs[i];
    }
  }

  lemma {:induction false} StatusesFit(v: Val)
    ensures Fits(List(COLLECTION_STATUS), v) <==> v.Items? && AreStatuses(v.vals) && StatusesOk(StatusesOf(v.vals))
  {
    Limits();
    if v.Items? {
      forall i | 0 <= i < |v.vals| ensures Fits(COLLECTION_STATUS, v.vals[i]) <==> IsStatus(v.vals[i]) && StatusOk(StatusOf(v.vals[i])) {
        StatusFits(v.vals[i]);
      }
      assert Fits(List(COLLECTION_STATUS), v) <==> |v.vals| < Limit(10, 1) && FitAll(COLLECTION_STATUS, v.vals);
    }
  }

  predicate IsReport(v: Val) {
    v.Both? && v.left.Items? && AreStatuses(v.left.vals) && v.right.Both? && v.right.left.Num? && IsOpt(v.right.right)
  }

  function ReportOf(v: Val): Response
    requires IsReport(v)
  {
    Report(StatusesOf(v.left.vals), v.right.left.num, OptOf(v.right.right))
  }

  lemma {:induction false} ReportFits(v: Val)
    ensures Fits(REPORT, v) <==> IsReport(v) && ResponseOk(ReportOf(v))
  {
    PairFits(List(COLLECTION_STATUS), Pair(U64, Opt(Text)), v);
    if v.Both? {
      StatusesFit(v.left);
      PairFits(U64, Opt(Text), v.right);
      if v.right.Both? {
        NumFits(v.right.left);
        OptFits(v.right.right);
      }
    }
  }

  function ResponseVal(r: Response): Val {
    match r
    case Done => Choice(0, Nothing)
    case Report(cs, uptime, error) => Choice(1, Both(Items(StatusVals(cs)), Both(Num(uptime), OptVal(error))))
    case Failure(message) => Choice(2, Str(message))
  }

  function ResponseOf(v: Val): Option<Response> {
    if !v.Choice? then None
    else if v.k == 0 && v.arg.Nothing? then Some(Done)
    else if v.k == 1 && IsReport(v.arg) then Some(ReportOf(v.arg))
    else if v.k == 2 && v.arg.Str? then Some(Failure(v.arg.utf8)) else None
  }

  lemma {:induction false} ResponseCase(k: nat, arg: Val)
    ensures Fits(RESPONSE, Choice(k, arg)) <==> ResponseOf(Choice(k, arg)).Some? && ResponseOk(ResponseOf(Choice(k, arg)).value)
  {
    ChoiceFits(RESPONSE.cases, k, arg);
    if k == 1 {
      ReportFits(arg);
    } else if k == 2 {
      TextFits(arg);
    }
  }

  /** The values of the response shape are exactly the responses. */
  lemma {:induction false} ResponsesFit(r: Response)
    requires ResponseOk(r)
    ensures Fits(RESPONSE, ResponseVal(r)) && ResponseOf(ResponseVal(r)) == Some(r)
  {
    if r.Report? { StatusesIso(r.collections); }
    ResponseCase(ResponseVal(r).k, ResponseVal(r).arg);
  }

  lemma {:induction false} FitsIsResponse(v: Val)
    requires Fits(RESPONSE, v)
    ensures ResponseOf(v).Some? && ResponseOk(ResponseOf(v).value) && ResponseVal(ResponseOf(v).value) == v
  {
    ResponseCase(v.k, v.arg);
    if v.k == 1 { StatusesBack(v.arg.left.vals); }
  }

  lemma {:induction false} ResponseWellFormed()
    ensures WellFormed(RESPONSE)
  {
    PairWellFormed(U64, Opt(Text));
    PairWellFormed(Bool, Pair(U64, Opt(Text)));
    PairWellFormed(Text, Pair(Bool, Pair(U64, Opt(Text))));
    PairWellFormed(Text, Pair(Text, Pair(Bool, Pair(U64, Opt(Text)))));
    PairWellFormed(List(COLLECTION_STATUS), Pair(U64, Opt(Text)));
    EnumWellFormed(RESPONSE.cases);
  }

  // ---- over the socket ----

  function RequestBody(r: Request): Bytes
    requires RequestOk(r)
  {
    RequestsFit(r);
    Encode(REQUEST, RequestVal(r))
  }

  function DecodeRequest(body: Bytes): Result<Request> {
    match DecodeFrame(REQUEST, body)
    case Err(e) => Err(e)
    case Ok(v) => if RequestOf(v).Some? then Ok(RequestOf(v).value) else Err(Encoding)
  }

  function ResponseBody(r: Response): Bytes
    requires ResponseOk(r)
  {
    ResponsesFit(r);
    Encode(RESPONSE, ResponseVal(r))
  }

  function DecodeResponse(body: Bytes): Result<Response> {
    match DecodeFrame(RESPONSE, body)
    case Err(e) => Err(e)
    case Ok(v) => if ResponseOf(v).Some? then Ok(ResponseOf(v).value) else Err(Encoding)
  }

  /** Every request can be framed exactly when its body and version byte fit, and is then received as
      itself in front of anything else on the stream. */
  lemma {:induction false} RequestRoundTrip(r: Request, rest: Bytes)
    requires RequestOk(r)
    ensures FrameOf(RequestBody(r)).Ok? <==> |RequestBody(r)| + 1 <= MAX_FRAME
    ensures FrameOf(RequestBody(r)).Ok? ==>
              var got := Received(FrameOf(RequestBody(r)).value + rest);
              got.Ok? && got.value.1 == rest && DecodeRequest(got.value.0) == Ok(r)
  {
    RequestsFit(r);
    RequestWellFormed();
    if FrameOf(RequestBody(r)).Ok? {
      SentIsReceived(REQUEST, RequestVal(r), rest);
    }
  }

  lemma {:induction false} ResponseRoundTrip(r: Response, rest: Bytes)
    requires ResponseOk(r)
    ensures FrameOf(ResponseBody(r)).Ok? <==> |ResponseBody(r)| + 1 <= MAX_FRAME
    ensures FrameOf(ResponseBody(r)).Ok? ==>
              var got := Received(FrameOf(ResponseBody(r)).value + rest);
              got.Ok? && got.value.1 == rest && DecodeResponse(got.value.0) == Ok(r)
  {
    ResponsesFit(r);
    ResponseWellFormed();
    if FrameOf(ResponseBody(r)).Ok? {
      SentIsReceived(RESPONSE, ResponseVal(r), rest);
    }
  }

  /** Whatever bytes a peer sends: what is accepted is a well-typed request, its own body is no
      longer, decodes to the same request and frames again, and nothing may follow it. */
  lemma {:induction false} AcceptedRequest(body: Bytes, x: Bytes)
    requires DecodeRequest(body).Ok?
    ensures var r := DecodeRequest(body).value;
            && RequestOk(r) && 1 + |RequestBody(r)| <= |body| && DecodeRequest([PROTOCOL_VERSION] + RequestBody(r)) == Ok(r)
            && (|body| <= MAX_FRAME ==> FrameOf(RequestBody(r)).Ok?)
    ensures x != [] ==> DecodeRequest(body + x) == Err(TrailingBytes(|x|))
  {
    RequestWellFormed();
    ReencodeStable(REQUEST, body);
    FitsIsRequest(DecodeFrame(REQUEST, body).value);
    if x != [] { SuffixRefused(REQUEST, body, x); }
  }

  lemma {:induction false} AcceptedResponse(body: Bytes, x: Bytes)
    requires DecodeResponse(body).Ok?
    ensures var r := DecodeResponse(body).value;
            && ResponseOk(r) && 1 + |ResponseBody(r)| <= |body| && DecodeResponse([PROTOCOL_VERSION] + ResponseBody(r)) == Ok(r)
            && (|body| <= MAX_FRAME ==> FrameOf(ResponseBody(r)).Ok?)
    ensures x != [] ==> DecodeResponse(body + x) == Err(TrailingBytes(|x|))
  {
    ResponseWellFormed();
    ReencodeStable(RESPONSE, body);
    FitsIsResponse(DecodeFrame(RESPONSE, body).value);
    if x != [] { SuffixRefused(RESPONSE, body, x); }
  }
}
