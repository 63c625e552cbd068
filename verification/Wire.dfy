/**
 The exact bytes of every message, so that two versions of the daemon that agree with this agree with
 each other.
 */
module Wire {
  import opened Options
  import opened Postcard
  import opened Protocol
  import opened Messages

  // ---- integers ----

  /** Seven bits to a byte, the low ones first; a byte of 128 or more is followed by another. */
  predicate IsVarint(b: Bytes, n: nat)
    decreases |b|
  {
    b != [] && if |b| == 1 then b[0] < 128 && n == b[0] else b[0] >= 128 && n % 128 == b[0] - 128 && n / 128 > 0 && IsVarint(b[1..], n / 128)
  }

  /** Integers are written in the one shortest way. */
  lemma {:induction false} VarintIs(n: nat)
    ensures IsVarint(EncodeVar(n), n)
  {
    if n >= 128 {
      VarintIs(n / 128);
      assert EncodeVar(n)[1..] == EncodeVar(n / 128);
    }
  }

  lemma {:induction false} VarintOnly(b: Bytes, n: nat)
    requires IsVarint(b, n)
    ensures b == EncodeVar(n)
    decreases |b|
  {
    if |b| == 1 {
      assert b == [b[0]];
    } else {
      VarintOnly(b[1..], n / 128);
      assert b == [b[0]] + b[1..];
    }
  }

  /** A string: its length, then its bytes. */
  ghost predicate IsText(b: Bytes, t: Bytes) {
    exists len :: IsVarint(len, |t|) && b == len + t
  }

  lemma {:induction false} TextIs(t: Bytes)
    ensures IsText(EncodeVar(|t|) + t, t)
  {
    VarintIs(|t|);
  }

  /** An optional string: 0, or 1 and the string. */
  ghost predicate IsOptional(b: Bytes, t: Option<Bytes>) {
    match t
    case None => b == [0]
    case Some(x) => exists text :: IsText(text, x) && b == [1] + text
  }

  lemma {:induction false} OptionalIs(t: Option<Bytes>)
    requires OptOk(t)
    ensures Fits(Opt(Text), OptVal(t)) && IsOptional(Encode(Opt(Text), OptVal(t)), t)
  {
    OptFits(OptVal(t));
    if t.Some? { TextIs(t.value); }
  }

  // ---- frames ----

  /** The length of version byte and body, most significant byte first, the version, the body. */
  predicate IsFrame(frame: Bytes, body: Bytes) {
    |frame| == 5 + |body| && frame[4] == 5 && frame[5..] == body &&
    frame[0] as int * 16777216 + frame[1] as int * 65536 + frame[2] as int * 256 + frame[3] as int == |body| + 1
  }

  /** A body becomes that frame if it is less than a mebibyte, and is refused otherwise. */
  lemma {:induction false} FrameIs(body: Bytes)
    ensures FrameOf(body).Ok? <==> |body| < 1048576
    ensures FrameOf(body).Ok? ==> IsFrame(FrameOf(body).value, body)
  {
    if FrameOf(body).Ok? { Be32RoundTrip(|body| + 1); }
  }

  /** A body of another version is refused by its version, and an empty one as malformed. */
  lemma {:induction false} VersionRefused(s: Shape, body: Bytes)
    requires body == [] || body[0] != 5
    ensures DecodeFrame(s, body) == if body == [] then Err(Encoding) else Err(UnsupportedVersion(body[0]))
  {
  }

  // ---- requests ----

  ghost predicate IsKdfBytes(b: Bytes, kdf: KdfParams) {
    exists m, t, p :: IsVarint(m, kdf.mCostKib) && IsVarint(t, kdf.tCost) && IsVarint(p, kdf.pCost) && b == m + (t + p)
  }

  /** The variant's number, then its fields in the order they are declared in. */
  ghost predicate IsRequest(b: Bytes, r: Request) {
    match r
    case Lock(collection) => exists opt :: IsOptional(opt, collection) && b == [0] + opt
    case Status => b == [1]
    case Reload => b == [2]
    case UnlockWithKey(name, key, pin) => exists text :: IsText(text, name) && b == [3] + (text + (key + [if pin then 1 else 0]))
    case ChangeKey(name, oldKey, newSalt, kdf, newKey) =>
      exists text, k :: IsText(text, name) && IsKdfBytes(k, kdf) && b == [4] + (text + (oldKey + (newSalt + (k + newKey))))
  }

  lemma {:induction false} ChoiceBytes(cases: seq<Shape>, k: nat, arg: Val)
    requires k < 128 && Fits(Enum(cases), Choice(k, arg))
    ensures k < |cases| && Fits(cases[k], arg) && Encode(Enum(cases), Choice(k, arg)) == [k] + Encode(cases[k], arg)
  {
  }

  lemma {:induction false} PairBytes(fst: Shape, snd: Shape, x: Val, y: Val)
    requires Fits(Pair(fst, snd), Both(x, y))
    ensures Fits(fst, x) && Fits(snd, y) && Encode(Pair(fst, snd), Both(x, y)) == Encode(fst, x) + Encode(snd, y)
  {
  }

  lemma {:induction false} UnlockBytes(name: Bytes, key: Bytes, pin: bool)
    requires Fits(UNLOCK_WITH_KEY, UnlockVal(name, key, pin))
    ensures Encode(UNLOCK_WITH_KEY, UnlockVal(name, key, pin)) == (EncodeVar(|name|) + name) + (key + [if pin then 1 else 0])
  {
    PairBytes(Text, Pair(KEY, Bool), Str(name), Both(Raw(key), Flag(pin)));
    PairBytes(KEY, Bool, Raw(key), Flag(pin));
  }

  lemma {:induction false} KdfBytes(kdf: KdfParams)
    requires Fits(KDF, KdfVal(kdf))
    ensures IsKdfBytes(Encode(KDF, KdfVal(kdf)), kdf)
  {
    PairBytes(U32, Pair(U32, U32), Num(kdf.mCostKib), Both(Num(kdf.tCost), Num(kdf.pCost)));
    PairBytes(U32, U32, Num(kdf.tCost), Num(kdf.pCost));
    VarintIs(kdf.mCostKib);
    VarintIs(kdf.tCost);
    VarintIs(kdf.pCost);
  }

  lemma {:induction false} ChangeBytes(name: Bytes, oldKey: Bytes, newSalt: Bytes, kdf: KdfParams, newKey: Bytes)
    requires Fits(CHANGE_KEY, ChangeVal(name, oldKey, newSalt, kdf, newKey))
    ensures Fits(KDF, KdfVal(kdf))
    ensures Encode(CHANGE_KEY, ChangeVal(name, oldKey, newSalt, kdf, newKey)) ==
              (EncodeVar(|name|) + name) + (oldKey + (newSalt + (Encode(KDF, KdfVal(kdf)) + newKey)))
  {
    PairBytes(Text, Pair(KEY, Pair(Fixed(SALT_LEN), Pair(KDF, KEY))), Str(name), Both(Raw(oldKey), Both(Raw(newSalt), Both(KdfVal(kdf), Raw(newKey)))));
    PairBytes(KEY, Pair(Fixed(SALT_LEN), Pair(KDF, KEY)), Raw(oldKey), Both(Raw(newSalt), Both(KdfVal(kdf), Raw(newKey))));
    PairBytes(Fixed(SALT_LEN), Pair(KDF, KEY), Raw(newSalt), Both(KdfVal(kdf), Raw(newKey)));
    PairBytes(KDF, KEY, KdfVal(kdf), Raw(newKey));
  }

  /** Every request's body is exactly these bytes. */
  lemma {:induction false} RequestBytes(r: Request)
    requires RequestOk(r)
    ensures IsRequest(RequestBody(r), r)
  {
    RequestsFit(r);
    ChoiceBytes(REQUEST.cases, RequestVal(r).k, RequestVal(r).arg);
    match r
    case Lock(collection) => OptionalIs(collection);
    case UnlockWithKey(name, key, pin) =>
      UnlockBytes(name, key, pin);
      TextIs(name);
    case ChangeKey(name, oldKey, newSalt, kdf, newKey) =>
      ChangeBytes(name, oldKey, newSalt, kdf, newKey);
      KdfBytes(kdf);
      TextIs(name);
    case _ =>
  }

  // ---- responses ----

  ghost predicate IsStatusBytes(b: Bytes, c: CollectionStatus) {
    exists id: Bytes, title: Bytes, items: Bytes, warning: Bytes
      {:trigger IsText(id, c.id), IsText(title, c.title), IsVarint(items, c.items), IsOptional(warning, c.warning)} ::
      IsText(id, c.id) && IsText(title, c.title) && IsVarint(items, c.items) && IsOptional(warning, c.warning) &&
      b == id + (title + ([if c.locked then 1 else 0] + (items + warning)))
  }

  /** One collection after the other. */
  ghost predicate AreStatusBytes(b: Bytes, cs: seq<CollectionStatus>)
    decreases |cs|
  {
    if cs == [] then b == [] else exists head: Bytes, tail: Bytes :: IsStatusBytes(head, cs[0]) && AreStatusBytes(tail, cs[1..]) && b == head + tail
  }

  ghost predicate IsReportBytes(b: Bytes, cs: seq<CollectionStatus>, uptime: nat, error: Option<Bytes>) {
    exists n: Bytes, list: Bytes, up: Bytes, opt: Bytes
      {:trigger IsVarint(n, |cs|), AreStatusBytes(list, cs), IsVarint(up, uptime), IsOptional(opt, error)} ::
      IsVarint(n, |cs|) && AreStatusBytes(list, cs) && IsVarint(up, uptime) && IsOptional(opt, error) && b == (n + list) + (up + opt)
  }

  ghost predicate IsResponse(b: Bytes, r: Response) {
    match r
    case Done => b == [0]
    case Report(cs, uptime, error) => exists report :: IsReportBytes(report, cs, uptime, error) && b == [1] + report
    case Failure(message) => exists text :: IsText(text, message) && b == [2] + text
  }

  lemma {:induction false} StatusBytes(c: CollectionStatus)
    requires StatusOk(c)
    ensures Fits(COLLECTION_STATUS, StatusVal(c)) && IsStatusBytes(Encode(COLLECTION_STATUS, StatusVal(c)), c)
  {
    StatusFits(StatusVal(c));
    PairBytes(Text, Pair(Text, Pair(Bool, Pair(U64, Opt(Text)))), Str(c.id), Both(Str(c.title), Both(Flag(c.locked), Both(Num(c.items), OptVal(c.warning)))));
    PairBytes(Text, Pair(Bool, Pair(U64, Opt(Text))), Str(c.title), Both(Flag(c.locked), Both(Num(c.items), OptVal(c.warning))));
    PairBytes(Bool, Pair(U64, Opt(Text)), Flag(c.locked), Both(Num(c.items), OptVal(c.warning)));
    PairBytes(U64, Opt(Text), Num(c.items), OptVal(c.warning));
    TextIs(c.id);
    TextIs(c.title);
    VarintIs(c.items);
    OptionalIs(c.warning);
  }

  lemma {:induction false} OneMoreStatus(head: Bytes, tail: Bytes, cs: seq<CollectionStatus>)
    requires cs != [] && IsStatusBytes(head, cs[0]) && AreStatusBytes(tail, cs[1..])
    ensures AreStatusBytes(head + tail, cs)
  {
  }

  lemma {:induction false} FirstStatus(cs: seq<CollectionStatus>)
    requires cs != []
    ensures StatusVals(cs) == [StatusVal(cs[0])] + StatusVals(cs[1..])
  {
  }

  lemma {:induction false} StatusesBytes(cs: seq<CollectionStatus>)
    requires forall i :: 0 <= i < |cs| ==> StatusOk(cs[i])
    ensures FitAll(COLLECTION_STATUS, StatusVals(cs)) && AreStatusBytes(EncodeAll(COLLECTION_STATUS, StatusVals(cs)), cs)
  {
    if cs != [] {
      var v, vs := StatusVal(cs[0]), StatusVals(cs[1..]);
      StatusBytes(cs[0]);
      StatusesBytes(cs[1..]);
      FirstStatus(cs);
      EncodeCons(COLLECTION_STATUS, v, vs);
      OneMoreStatus(Encode(COLLECTION_STATUS, v), EncodeAll(COLLECTION_STATUS, vs), cs);
    }
  }

  lemma {:induction false} ReportBytes(cs: seq<CollectionStatus>, uptime: nat, error: Option<Bytes>)
    requires Fits(REPORT, Both(Items(StatusVals(cs)), Both(Num(uptime), OptVal(error)))) && FitAll(COLLECTION_STATUS, StatusVals(cs))
    requires Fits(Opt(Text), OptVal(error))
    ensures Encode(REPORT, Both(Items(StatusVals(cs)), Both(Num(uptime), OptVal(error)))) ==
              (EncodeVar(|cs|) + EncodeAll(COLLECTION_STATUS, StatusVals(cs))) + (EncodeVar(uptime) + Encode(Opt(Text), OptVal(error)))
  {
    PairBytes(List(COLLECTION_STATUS), Pair(U64, Opt(Text)), Items(StatusVals(cs)), Both(Num(uptime), OptVal(error)));
    PairBytes(U64, Opt(Text), Num(uptime), OptVal(error));
  }

  lemma {:induction false} ReportIs(cs: seq<CollectionStatus>, uptime: nat, error: Option<Bytes>)
    requires ResponseOk(Report(cs, uptime, error)) && Fits(REPORT, Both(Items(StatusVals(cs)), Both(Num(uptime), OptVal(error))))
    ensures IsReportBytes(Encode(REPORT, Both(Items(StatusVals(cs)), Both(Num(uptime), OptVal(error)))), cs, uptime, error)
  {
    StatusesBytes(cs);
    OptionalIs(error);
    ReportBytes(cs, uptime, error);
    VarintIs(|cs|);
    VarintIs(uptime);
  }

  /** Every response's body is exactly these bytes. */
  lemma {:induction false} ResponseBytes(r: Response)
    requires ResponseOk(r)
    ensures IsResponse(ResponseBody(r), r)
  {
    ResponsesFit(r);
    ChoiceBytes(RESPONSE.cases, ResponseVal(r).k, ResponseVal(r).arg);
    match r
    case Report(cs, uptime, error) => ReportIs(cs, uptime, error);
    case Failure(message) => TextIs(message);
    case Done =>
  }
}
