/**
  * The social endpoints: reactions, reaction counts with the top reaction,
  * business inquiries and share links. Request bodies arrive as optional
  * strings (JavaScript's `undefined`), the environment as optional strings,
  * and the SHA-256 digest, the clock and `Math.random` as parameters.
  */
module SocialRoutes {
  import opened Wrappers
  import opened Text
  import opened OrderedDict
  import opened DatabaseService
  import ContentRoutes

  /** A string field a JavaScript truthiness test accepts: present and non-empty. */
  predicate Given(v: Option<string>) {
    v.Some? && v.value != ""
  }

  /** The 400 answers of these endpoints. */
  datatype SocialError = ValidationError | InvalidReactionType

  datatype Checked<T> = Rejected(error: SocialError) | Accepted(value: T)

  // ---------------------------------------------------------------------------
  // POST /reactions

  datatype ReactionRequest = ReactionRequest(imageId: Option<string>, reactionType: Option<string>, sessionId: Option<string>)

  datatype ValidReaction = ValidReaction(imageId: string, reactionType: string)

  /** The two checks, in order: both fields given, then a known reaction type. */
  function ValidateReaction(req: ReactionRequest): Checked<ValidReaction> {
    if !Given(req.imageId) || !Given(req.reactionType) then Rejected(ValidationError)
    else if req.reactionType.value !in ReactionTypes then Rejected(InvalidReactionType)
    else Accepted(ValidReaction(req.imageId.value, req.reactionType.value))
  }

  /** A reaction is accepted exactly when both fields are given and the type is one of the eight. */
  lemma ValidateReactionSpec(req: ReactionRequest)
    ensures var r := ValidateReaction(req);
      (r == Rejected(ValidationError) <==> !Given(req.imageId) || !Given(req.reactionType)) &&
      (r == Rejected(InvalidReactionType) <==> Given(req.imageId) && Given(req.reactionType) && req.reactionType.value !in ReactionTypes) &&
      (r.Accepted? <==> Given(req.imageId) && Given(req.reactionType) && req.reactionType.value in ReactionTypes) &&
      (r.Accepted? ==> r.value == ValidReaction(req.imageId.value, req.reactionType.value))
  {
  }

  /** `req.ip || 'unknown'` */
  function ClientIp(ip: Option<string>): (r: string)
    ensures r != ""
    ensures Given(ip) ==> r == ip.value
  {
    if Given(ip) then ip.value else "unknown"
  }

  /**
    * What `hashIP` feeds the digest, as written: `ip + process.env.IP_SALT || 'default-salt'`
    * concatenates first (an unset salt reads as "undefined") and only then applies `||`.
    */
  function HashInputAsWritten(ip: string, salt: Option<string>): string {
    var joined := ip + ContentRoutes.EnvText(salt);
    if joined != "" then joined else "default-salt"
  }

  /** Since the address is never empty, the default salt is never used, and an unset salt hashes `<ip>undefined`. */
  lemma DefaultSaltNeverUsed(ip: Option<string>, salt: Option<string>)
    ensures HashInputAsWritten(ClientIp(ip), salt) == ClientIp(ip) + ContentRoutes.EnvText(salt)
    ensures salt.None? ==> HashInputAsWritten(ClientIp(ip), salt) == ClientIp(ip) + "undefined"
  {
  }

  /** The input the digest was meant to get: the address followed by the salt, or by `default-salt` when none is set. */
  function HashInput(ip: string, salt: Option<string>): (r: string)
    ensures StartsWith(r, ip)
    ensures r[|ip|..] == (if Given(salt) then salt.value else "default-salt")
  {
    ip + (if Given(salt) then salt.value else "default-salt")
  }

  /** With a salt set, the two readings agree; without one, they differ for every address. */
  lemma HashInputAgreement(ip: string, salt: Option<string>)
    requires ip != ""
    ensures Given(salt) ==> HashInputAsWritten(ip, salt) == HashInput(ip, salt)
    ensures salt.None? ==> HashInputAsWritten(ip, salt) != HashInput(ip, salt)
  {
    if salt.None? {
      var w := HashInputAsWritten(ip, salt);
      assert w[|ip|..] == "undefined";
      assert HashInput(ip, salt)[|ip|..] == "default-salt";
      assert "undefined"[0] != "default-salt"[0];
    }
  }

  datatype ReactionAnswer = ReactionAnswer(id: string, imageId: string, reactionType: string, ipHash: string,
                                           sessionId: Option<string>, newCounts: ODict<string, int>)

  /**
    * `POST /reactions`: `digest` is the hex SHA-256 of a string, `table` the
    * reactions table before the call, `countRows` what the count query returns
    * afterwards. The answer and the new table.
    */
  function PostReaction(req: ReactionRequest, ip: Option<string>, salt: Option<string>, digest: string -> string,
                        table: seq<Reaction>, countRows: seq<CountRow>): Checked<(ReactionAnswer, seq<Reaction>)>
  {
    match ValidateReaction(req)
    case Rejected(e) => Rejected(e)
    case Accepted(v) =>
      var ipHash := digest(HashInput(ClientIp(ip), salt));
      var id := ReactionId(v.imageId, ipHash, v.reactionType);
      var row := Reaction(id, v.imageId, v.reactionType, ipHash, SessionColumn(req.sessionId));
      Accepted((ReactionAnswer(id, v.imageId, v.reactionType, ipHash, req.sessionId, ReactionCounts(countRows)),
                InsertOrReplace(table, row)))
  }

  /**
    * An accepted request answers with the id of the row it stores: that row comes
    * last, no other row keeps its id, and every row with another id stays.
    */
  lemma PostReactionSpec(req: ReactionRequest, ip: Option<string>, salt: Option<string>, digest: string -> string,
                         table: seq<Reaction>, countRows: seq<CountRow>)
    ensures var r := PostReaction(req, ip, salt, digest, table, countRows);
      (r.Rejected? <==> ValidateReaction(req).Rejected?) &&
      (r.Rejected? ==> r.error == ValidateReaction(req).error) &&
      (r.Accepted? ==>
        var (answer, after) := r.value;
        answer.ipHash == digest(HashInput(ClientIp(ip), salt)) &&
        answer.id == ReactionId(req.imageId.value, answer.ipHash, req.reactionType.value) &&
        after[|after| - 1] == Reaction(answer.id, answer.imageId, answer.reactionType, answer.ipHash, SessionColumn(req.sessionId)) &&
        (forall i :: 0 <= i < |after| - 1 ==> after[i].id != answer.id) &&
        (forall x: Reaction :: x.id != answer.id ==> (x in after <==> x in table)))
  {
    var r := PostReaction(req, ip, salt, digest, table, countRows);
    if r.Accepted? {
      var (answer, _) := r.value;
      InsertOrReplaceSpec(table, Reaction(answer.id, answer.imageId, answer.reactionType, answer.ipHash, SessionColumn(req.sessionId)));
    }
  }

  /** Reacting twice the same way leaves the table as reacting once. */
  lemma PostReactionTwice(req: ReactionRequest, ip: Option<string>, salt: Option<string>, digest: string -> string,
                          table: seq<Reaction>, countRows: seq<CountRow>)
    requires PostReaction(req, ip, salt, digest, table, countRows).Accepted?
    ensures var once := PostReaction(req, ip, salt, digest, table, countRows).value.1;
      PostReaction(req, ip, salt, digest, once, countRows).value.1 == once
  {
    var answer := PostReaction(req, ip, salt, digest, table, countRows).value.0;
    AddReactionIdempotent(table, Reaction(answer.id, answer.imageId, answer.reactionType, answer.ipHash, SessionColumn(req.sessionId)));
  }

  // ---------------------------------------------------------------------------
  // GET /reactions/image/:imageId

  /**
    * `Object.entries(counts).filter(key !== 'total').sort(by count, descending)[0]`:
    * the sort is stable, so this is the first key in order, other than `total`,
    * whose count no other key exceeds.
    */
  function TopOf(keys: seq<string>, counts: map<string, int>): (r: Option<string>)
    requires forall i :: 0 <= i < |keys| ==> keys[i] in counts
    ensures r.Some? ==> r.value in keys && r.value != "total"
  {
    if keys == [] then None
    else
      var best := TopOf(keys[..|keys| - 1], counts);
      var k := keys[|keys| - 1];
      if k == "total" then best
      else if best.None? || counts[k] > counts[best.value] then Some(k)
      else best
  }

  /** The top reaction of a counts object. */
  function TopReaction(c: ODict<string, int>): Option<string>
    requires c.Valid()
  {
    TopOf(c.keys, c.vals)
  }

  /** The top reaction is missing only when every key is `total`. */
  lemma {:induction false} TopOfNone(keys: seq<string>, counts: map<string, int>)
    requires forall i :: 0 <= i < |keys| ==> keys[i] in counts
    ensures TopOf(keys, counts).None? <==> forall i :: 0 <= i < |keys| ==> keys[i] == "total"
  {
    if keys != [] {
      TopOfNone(keys[..|keys| - 1], counts);
    }
  }

  /** Position `t` holds a count no other key but `total` exceeds, and every key before it has a smaller one. */
  ghost predicate TopAt(keys: seq<string>, counts: map<string, int>, t: int)
    requires forall i :: 0 <= i < |keys| ==> keys[i] in counts
  {
    0 <= t < |keys| &&
    (forall i :: 0 <= i < |keys| && keys[i] != "total" ==> counts[keys[i]] <= counts[keys[t]]) &&
    (forall i :: 0 <= i < t && keys[i] != "total" ==> counts[keys[i]] < counts[keys[t]])
  }

  /** No key other than `total` has a larger count than the top reaction, and every key before it has a smaller one. */
  lemma {:induction false} TopOfMaximal(keys: seq<string>, counts: map<string, int>)
    requires forall i :: 0 <= i < |keys| ==> keys[i] in counts
    requires TopOf(keys, counts).Some?
    ensures exists t :: TopAt(keys, counts, t) && keys[t] == TopOf(keys, counts).value
  {
    var front := keys[..|keys| - 1];
    var last := |keys| - 1;
    var best := TopOf(front, counts);
    var top := TopOf(keys, counts).value;
    if best.Some? {
      TopOfMaximal(front, counts);
      var t :| TopAt(front, counts, t) && front[t] == best.value;
      if top == best.value {
        TopAtKeep(keys, counts, t);
      } else {
        TopAtLast(keys, counts, t);
      }
    } else {
      TopOfNone(front, counts);
      assert keys == front + [keys[last]];
      TopAtOnly(front, keys[last], counts);
    }
  }

  lemma TopAtKeep(keys: seq<string>, counts: map<string, int>, t: int)
    requires keys != [] && forall i :: 0 <= i < |keys| ==> keys[i] in counts
    requires TopAt(keys[..|keys| - 1], counts, t)
    requires keys[|keys| - 1] == "total" || counts[keys[|keys| - 1]] <= counts[keys[t]]
    ensures TopAt(keys, counts, t)
  {
    assert forall i :: 0 <= i < |keys| - 1 ==> keys[..|keys| - 1][i] == keys[i];
  }

  lemma TopAtLast(keys: seq<string>, counts: map<string, int>, t: int)
    requires keys != [] && forall i :: 0 <= i < |keys| ==> keys[i] in counts
    requires TopAt(keys[..|keys| - 1], counts, t)
    requires counts[keys[t]] < counts[keys[|keys| - 1]]
    ensures TopAt(keys, counts, |keys| - 1)
  {
    assert forall i :: 0 <= i < |keys| - 1 ==> keys[..|keys| - 1][i] == keys[i];
  }

  lemma TopAtOnly(front: seq<string>, k: string, counts: map<string, int>)
    requires k in counts && forall i :: 0 <= i < |front| ==> front[i] in counts
    requires forall i :: 0 <= i < |front| ==> front[i] == "total"
    ensures TopAt(front + [k], counts, |front|)
  {
    assert forall i :: 0 <= i < |front| ==> (front + [k])[i] == front[i];
  }

  datatype ReactionSummary = ReactionSummary(imageId: string, counts: ODict<string, int>, topReaction: Option<string>)

  /** `GET /reactions/image/:imageId`, given the rows of the count query. */
  function GetImageReactions(imageId: string, countRows: seq<CountRow>): ReactionSummary {
    var counts := ReactionCounts(countRows);
    ReactionSummary(imageId, counts, TopReaction(counts))
  }

  /** The counts always hold the eight types, so the top reaction is never null. */
  lemma TopReactionNeverNull(imageId: string, countRows: seq<CountRow>)
    ensures GetImageReactions(imageId, countRows).topReaction.Some?
  {
    var c := ReactionCounts(countRows);
    ReactionCountsKeys(countRows, "like");
    assert "like" in c.keys;
    TopOfNone(c.keys, c.vals);
  }

  // ---------------------------------------------------------------------------
  // POST /inquiries

  /** `contactInfo` is `None` when the body has none; `email` is its `email` field. */
  datatype InquiryRequest = InquiryRequest(imageId: Option<string>, inquiryType: Option<string>, email: Option<string>)

  datatype InquiryAnswer = InquiryAnswer(inquiryId: string, confirmationCode: string, estimatedResponse: string,
                                         autoReplyMessage: string)

  /** `s.substr(-n)`: the last `n` characters, or all of `s` when it is shorter. */
  function LastChars(s: string, n: nat): (r: string)
    ensures |r| == if |s| < n then |s| else n
    ensures forall i :: 0 <= i < |r| ==> r[i] == s[|s| - |r| + i]
  {
    if |s| < n then s else s[|s| - n..]
  }

  /** `inq-${Date.now()}-${random}` */
  function InquiryId(now: nat, randomPart: string): string {
    "inq-" + NatToString(now) + "-" + randomPart
  }

  /** `inquiryId.substr(-8).toUpperCase()` */
  function ConfirmationCode(inquiryId: string): string {
    Upper(LastChars(inquiryId, 8))
  }

  /** The code is the id's last eight characters (all of a shorter id), upper-cased. */
  lemma ConfirmationCodeSpec(inquiryId: string)
    ensures var r := ConfirmationCode(inquiryId);
      |r| == (if |inquiryId| < 8 then |inquiryId| else 8) &&
      forall i :: 0 <= i < |r| ==> r[i] == UpperChar(inquiryId[|inquiryId| - |r| + i])
  {
    var tail := LastChars(inquiryId, 8);
    var r := Upper(tail);
    forall i | 0 <= i < |r|
      ensures r[i] == UpperChar(inquiryId[|inquiryId| - |r| + i])
    {
      assert r[i] == UpperChar(tail[i]);
    }
  }

  /**
    * `POST /inquiries`: `now` is `Date.now()` and `randomPart` what
    * `Math.random().toString(36).substr(2, 9)` gave.
    */
  function PostInquiry(req: InquiryRequest, now: nat, randomPart: string): Checked<InquiryAnswer> {
    if !Given(req.imageId) || !Given(req.inquiryType) || !Given(req.email) then Rejected(ValidationError)
    else
      var inquiryId := InquiryId(now, randomPart);
      Accepted(InquiryAnswer(inquiryId, ConfirmationCode(inquiryId), "within 24 hours",
                             "Thank you for your " + req.inquiryType.value + " about this artwork. We'll get back to you within 24 hours."))
  }

  /** An inquiry is accepted exactly when image, type and e-mail are given. */
  lemma PostInquirySpec(req: InquiryRequest, now: nat, randomPart: string)
    ensures var r := PostInquiry(req, now, randomPart);
      (r.Accepted? <==> Given(req.imageId) && Given(req.inquiryType) && Given(req.email)) &&
      (r.Rejected? ==> r.error == ValidationError) &&
      (r.Accepted? ==> r.value.inquiryId == InquiryId(now, randomPart) &&
                       r.value.confirmationCode == ConfirmationCode(InquiryId(now, randomPart)))
  {
  }

  /** With a random part of eight or more characters, the confirmation code is that part's last eight, upper-cased. */
  lemma ConfirmationFromRandom(now: nat, randomPart: string)
    requires |randomPart| >= 8
    ensures ConfirmationCode(InquiryId(now, randomPart)) == Upper(randomPart[|randomPart| - 8..])
  {
    var head := "inq-" + NatToString(now) + "-";
    var id := InquiryId(now, randomPart);
    assert id == head + randomPart;
    assert id[|id| - 8..] == randomPart[|randomPart| - 8..];
  }

  // ---------------------------------------------------------------------------
  // POST /share

  /** `context` is `None` when the body has none; `carouselId` is its `carouselId` field. */
  datatype ShareRequest = ShareRequest(imageId: Option<string>, platform: Option<string>, carouselId: Option<string>)

  datatype ShareAnswer = ShareAnswer(shareUrl: string, optimizedImage: string)

  /** `process.env.FRONTEND_URL || 'http://localhost:3000'` */
  function BaseUrl(frontendUrl: Option<string>): string {
    if Given(frontendUrl) then frontendUrl.value else "http://localhost:3000"
  }

  /** `POST /share` */
  function PostShare(req: ShareRequest, frontendUrl: Option<string>): Checked<ShareAnswer> {
    if !Given(req.imageId) || !Given(req.platform) then Rejected(ValidationError)
    else
      var base := BaseUrl(frontendUrl);
      var page := base + "/image/" + req.imageId.value;
      Accepted(ShareAnswer(page + (if Given(req.carouselId) then "?carousel=" + req.carouselId.value else ""),
                           base + "/api/content/images/" + req.imageId.value + "/og-image"))
  }

  /**
    * A share is accepted exactly when image and platform are given; the link is
    * the image's page, and it carries `?carousel=<id>` exactly when a carousel is given.
    */
  lemma PostShareSpec(req: ShareRequest, frontendUrl: Option<string>)
    ensures var r := PostShare(req, frontendUrl);
      (r.Accepted? <==> Given(req.imageId) && Given(req.platform)) &&
      (r.Rejected? ==> r.error == ValidationError) &&
      (r.Accepted? ==>
        var page := BaseUrl(frontendUrl) + "/image/" + req.imageId.value;
        StartsWith(r.value.shareUrl, page) &&
        (r.value.shareUrl == page <==> !Given(req.carouselId)) &&
        (Given(req.carouselId) ==> r.value.shareUrl[|page|..] == "?carousel=" + req.carouselId.value))
  {
  }
}
