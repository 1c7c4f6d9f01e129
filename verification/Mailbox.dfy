/**
  * The completion mailbox of an agent-reported task: what the gateway accepts,
  * how accepted completions merge, and what the two decoders and the two
  * validators make of the result.
  */
module Mailbox {
  import opened Totals

  const KEY_STATUS := "status"
  const KEY_MESSAGE := "message"
  const PREFIX := "artifact."
  const SUCCESS := "success"
  const FAILURE := "failure"
  const MAX_ARTIFACT := 4096
  const MAX_TOTAL := 32768

  type Data = map<string, string>

  /** A completion: the request body and, read back, the parsed mailbox. */
  datatype Payload = Payload(status: string, message: string, artifacts: Data)

  datatype Checked = Accepted(patch: Data) | BadRequest | TooLarge

  function Lookup(data: Data, k: string): string {
    if k in data then data[k] else ""
  }

  // ---------------------------------------------------------------- decoding

  ghost function Names(data: Data): set<string> {
    set k | k in data && PREFIX <= k :: k[|PREFIX|..]
  }

  /** What a mailbox says. */
  ghost function Decoded(data: Data): Payload {
    Payload(Lookup(data, KEY_STATUS), Lookup(data, KEY_MESSAGE), Artifacts(data))
  }

  ghost function Artifacts(data: Data): Data {
    map n | n in Names(data) :: Lookup(data, PREFIX + n)
  }

  lemma NameIsKey(data: Data, n: string)
    ensures n in Names(data) <==> PREFIX + n in data
  {
    if PREFIX + n in data {
      assert (PREFIX + n)[|PREFIX|..] == n;
    }
    if n in Names(data) {
      var k :| k in data && PREFIX <= k && k[|PREFIX|..] == n;
      assert k == PREFIX + n;
    }
  }

  lemma PrefixInjective(a: string, b: string)
    requires PREFIX + a == PREFIX + b
    ensures a == b
  {
    assert a == (PREFIX + a)[|PREFIX|..];
  }

  lemma ArtifactsInsert(data: Data, n: string, v: string)
    ensures Artifacts(data[PREFIX + n := v]) == Artifacts(data)[n := v]
  {
    var more := data[PREFIX + n := v];
    forall m ensures m in Artifacts(more) <==> m in Artifacts(data)[n := v] {
      NameIsKey(data, m);
      NameIsKey(more, m);
      if PREFIX + m == PREFIX + n {
        PrefixInjective(m, n);
      }
    }
    forall m | m in Artifacts(more) ensures Artifacts(more)[m] == Artifacts(data)[n := v][m] {
      if m != n {
        NameIsKey(data, m);
        NameIsKey(more, m);
        if PREFIX + m == PREFIX + n {
          PrefixInjective(m, n);
        }
      }
    }
  }

  lemma ArtifactsSkip(data: Data, k: string, v: string)
    requires !(PREFIX <= k)
    ensures Artifacts(data[k := v]) == Artifacts(data)
  {
    assert Names(data[k := v]) == Names(data);
    forall n | n in Names(data) ensures PREFIX + n != k {
      assert PREFIX <= PREFIX + n;
    }
  }

  lemma DecodedEmpty()
    ensures Decoded(map[]) == Payload("", "", map[])
  {
  }

  /** The controller's decoder. */
  method ParseCompletion(data: Data) returns (p: Payload)
    ensures p == Decoded(data)
  {
    var artifacts: Data := map[];
    var todo := data.Keys;
    while todo != {}
      invariant todo <= data.Keys
      invariant artifacts == Artifacts(data - todo)
      decreases |todo|
    {
      var k :| k in todo;
      Visit(data, todo, k);
      if PREFIX <= k {
        assert k == PREFIX + k[|PREFIX|..];
        ArtifactsInsert(data - todo, k[|PREFIX|..], data[k]);
        artifacts := artifacts[k[|PREFIX|..] := data[k]];
      } else {
        ArtifactsSkip(data - todo, k, data[k]);
      }
      todo := todo - {k};
    }
    assert data - {} == data;
    p := Payload(if KEY_STATUS in data then data[KEY_STATUS] else "",
                 if KEY_MESSAGE in data then data[KEY_MESSAGE] else "", artifacts);
  }

  /** The gateway's decoder: one switch over the keys. Both decoders compute `Decoded`. */
  method ParseCompletionData(data: Data) returns (status: string, message: string, artifacts: Data)
    ensures Payload(status, message, artifacts) == Decoded(data)
  {
    status, message, artifacts := "", "", map[];
    DecodedEmpty();
    assert data - data.Keys == map[];
    var todo := data.Keys;
    while todo != {}
      invariant todo <= data.Keys
      invariant Payload(status, message, artifacts) == Decoded(data - todo)
      decreases |todo|
    {
      var k :| k in todo;
      Visit(data, todo, k);
      if k == KEY_STATUS {
        ArtifactsSkip(data - todo, k, data[k]);
        status := data[k];
      } else if k == KEY_MESSAGE {
        ArtifactsSkip(data - todo, k, data[k]);
        message := data[k];
      } else if PREFIX <= k {
        assert k == PREFIX + k[|PREFIX|..];
        ArtifactsInsert(data - todo, k[|PREFIX|..], data[k]);
        artifacts := artifacts[k[|PREFIX|..] := data[k]];
      } else {
        ArtifactsSkip(data - todo, k, data[k]);
      }
      todo := todo - {k};
    }
    assert data - {} == data;
  }

  // ---------------------------------------------------------------- validation

  /** Nothing undeclared; on success everything declared. */
  predicate NamesAgree(status: string, artifacts: Data, declared: seq<string>) {
    && (forall k :: k in artifacts ==> k in declared)
    && (status == SUCCESS ==> forall n :: n in declared ==> n in artifacts)
  }

  /** The rule both validators apply; an empty message means valid. */
  method ValidateArtifacts(status: string, artifacts: Data, declared: seq<string>) returns (msg: string)
    ensures msg == "" <==> NamesAgree(status, artifacts, declared)
  {
    var names: set<string> := {};
    for i := 0 to |declared|
      invariant names == set n | n in declared[..i]
    {
      names := names + {declared[i]};
      assert declared[..i + 1] == declared[..i] + [declared[i]];
    }
    assert declared[..|declared|] == declared;
    var todo := artifacts.Keys;
    while todo != {}
      invariant todo <= artifacts.Keys
      invariant forall k :: k in artifacts && k !in todo ==> k in declared
      decreases |todo|
    {
      var k :| k in todo;
      if k !in names {
        return "undeclared artifact in payload: " + k;
      }
      todo := todo - {k};
    }
    if status == SUCCESS {
      for i := 0 to |declared|
        invariant forall j :: 0 <= j < i ==> declared[j] in artifacts
      {
        if declared[i] !in artifacts {
          return "missing declared artifact: " + declared[i];
        }
      }
    }
    return "";
  }

  /** The length in bytes of a string's UTF-8 encoding, section 3 of RFC 3629. */
  function Utf8Length(s: string): nat {
    if s == [] then 0
    else
      var code := s[|s| - 1] as int;
      Utf8Length(s[..|s| - 1]) + if code < 0x80 then 1 else if code < 0x800 then 2 else if code < 0x1_0000 then 3 else 4
  }

  /** How many code points a sequence of that many bytes can hold: 7, 11, 16 and 21 payload bits. */
  function Utf8Capacity(bytes: int): int {
    match bytes
    case 1 => 128
    case 2 => 2048
    case 3 => 65536
    case _ => 2097152
  }

  /** A character takes the fewest bytes that can hold it, and lengths add up. */
  lemma Utf8IsShortest(c: char, s: string)
    ensures var n := Utf8Length([c]);
            && 1 <= n <= 4 && c as int < Utf8Capacity(n) && (n == 1 || c as int >= Utf8Capacity(n - 1))
            && Utf8Length(s + [c]) == Utf8Length(s) + n
    ensures Utf8Length("") == 0
  {
    assert [c][..0] == [] && (s + [c])[..|s|] == s;
  }

  function Sizes(artifacts: Data): map<string, int> {
    map k | k in artifacts :: Utf8Length(artifacts[k])
  }

  /** What the gateway takes: a known status, agreeing names, and sizes within the caps. */
  ghost predicate Acceptable(req: Payload, declared: seq<string>) {
    && (req.status == SUCCESS || req.status == FAILURE)
    && NamesAgree(req.status, req.artifacts, declared)
    && (forall k :: k in req.artifacts ==> Utf8Length(req.artifacts[k]) <= MAX_ARTIFACT)
    && Utf8Length(req.message) + Total(Sizes(req.artifacts)) <= MAX_TOTAL
  }

  /**
    * A success is taken only with exactly the declared artifacts, a failure with some of them, and neither
    * above 4 KiB each or 32 KiB together with the message.
    */
  lemma AcceptableIff(req: Payload, declared: seq<string>)
    ensures Acceptable(req, declared) <==>
            && (|| (req.status == "success" && req.artifacts.Keys == set n | n in declared)
                || (req.status == "failure" && req.artifacts.Keys <= set n | n in declared))
            && (forall k :: k in req.artifacts ==> Utf8Length(req.artifacts[k]) <= 4 * 1024)
            && Utf8Length(req.message) + Total(Sizes(req.artifacts)) <= 32 * 1024
  {
    hide Utf8Length, Sizes;
  }

  ghost function PatchKeys(artifacts: Data): set<string> {
    {KEY_STATUS, KEY_MESSAGE} + (set n | n in artifacts :: PREFIX + n)
  }

  /** The data a completion is written as: only the keys it needs, and it decodes back. */
  ghost predicate IsPatch(patch: Data, req: Payload) {
    && patch.Keys <= PatchKeys(req.artifacts)
    && (KEY_MESSAGE in patch <==> req.message != "")
    && KEY_STATUS in patch
    && Decoded(patch) == req
  }

  lemma PatchHead(req: Payload, data: Data)
    requires data == if req.message != "" then map[KEY_STATUS := req.status, KEY_MESSAGE := req.message]
                     else map[KEY_STATUS := req.status]
    ensures IsPatch(data, req.(artifacts := map[]))
  {
    ArtifactsSkip(map[], KEY_STATUS, req.status);
    ArtifactsSkip(map[KEY_STATUS := req.status], KEY_MESSAGE, req.message);
    assert map[][KEY_STATUS := req.status] == map[KEY_STATUS := req.status];
    assert map[KEY_STATUS := req.status][KEY_MESSAGE := req.message]
        == map[KEY_STATUS := req.status, KEY_MESSAGE := req.message];
    DecodedEmpty();
  }

  lemma PatchArtifact(data: Data, req: Payload, n: string, v: string)
    requires IsPatch(data, req)
    ensures IsPatch(data[PREFIX + n := v], req.(artifacts := req.artifacts[n := v]))
  {
    hide Artifacts;
    ArtifactsInsert(data, n, v);
    assert PREFIX <= PREFIX + n;
    assert !(PREFIX <= KEY_STATUS) && !(PREFIX <= KEY_MESSAGE);
    assert PREFIX + n in PatchKeys(req.artifacts[n := v]);
    forall k | k in data ensures k in PatchKeys(req.artifacts[n := v]) {
      if k !in {KEY_STATUS, KEY_MESSAGE} {
        var m :| m in req.artifacts && k == PREFIX + m;
        assert m in req.artifacts[n := v];
      }
    }
  }

  /** The gateway's checks on a completion body and the patch it writes. */
  method CheckCompletion(req: Payload, declared: seq<string>) returns (r: Checked)
    ensures r.Accepted? <==> Acceptable(req, declared)
    ensures r.BadRequest? <==> req.status !in {SUCCESS, FAILURE} || !NamesAgree(req.status, req.artifacts, declared)
    ensures r.Accepted? ==> IsPatch(r.patch, req)
  {
    if req.status != SUCCESS && req.status != FAILURE {
      return BadRequest;
    }
    var msg := ValidateArtifacts(req.status, req.artifacts, declared);
    if msg != "" {
      return BadRequest;
    }
    var fits := WithinCaps(req);
    if !fits {
      return TooLarge;
    }
    var patch := Encode(req);
    return Accepted(patch);
  }

  method WithinCaps(req: Payload) returns (fits: bool)
    ensures fits <==> (forall k :: k in req.artifacts ==> Utf8Length(req.artifacts[k]) <= 4096)
                      && Utf8Length(req.message) + Total(Sizes(req.artifacts)) <= 32768
  {
    hide Utf8Length;
    var total := Utf8Length(req.message);
    var sizes := Sizes(req.artifacts);
    var todo := req.artifacts.Keys;
    TotalEmpty(sizes - todo);
    while todo != {}
      invariant todo <= req.artifacts.Keys
      invariant forall k :: k in req.artifacts && k !in todo ==> Utf8Length(req.artifacts[k]) <= MAX_ARTIFACT
      invariant total == Utf8Length(req.message) + Total(sizes - todo)
      decreases |todo|
    {
      var k :| k in todo;
      if Utf8Length(req.artifacts[k]) > MAX_ARTIFACT {
        return false;
      }
      Visit(sizes, todo, k);
      TotalUpdate(sizes - todo, k, sizes[k]);
      total := total + Utf8Length(req.artifacts[k]);
      todo := todo - {k};
    }
    assert sizes - {} == sizes;
    return total <= MAX_TOTAL;
  }

  method Encode(req: Payload) returns (data: Data)
    ensures IsPatch(data, req)
  {
    hide IsPatch;
    data := map[KEY_STATUS := req.status];
    if req.message != "" {
      data := map[KEY_STATUS := req.status, KEY_MESSAGE := req.message];
    }
    PatchHead(req, data);
    var todo := req.artifacts.Keys;
    assert req.artifacts - todo == map[];
    while todo != {}
      invariant todo <= req.artifacts.Keys
      invariant IsPatch(data, req.(artifacts := req.artifacts - todo))
      decreases |todo|
    {
      var k :| k in todo;
      Visit(req.artifacts, todo, k);
      PatchArtifact(data, req.(artifacts := req.artifacts - todo), k, req.artifacts[k]);
      data := data[PREFIX + k := req.artifacts[k]];
      todo := todo - {k};
    }
    assert req.artifacts - {} == req.artifacts;
  }

  // ---------------------------------------------------------------- merging

  /** A merge patch of string values over string values, section 2 of RFC 7396. */
  function MergePatch(data: Data, patch: Data): Data {
    data + patch
  }

  lemma ArtifactsMerge(data: Data, patch: Data)
    ensures Artifacts(MergePatch(data, patch)) == Artifacts(data) + Artifacts(patch)
  {
    hide Names, PREFIX;
    var merged := MergePatch(data, patch);
    forall n
      ensures n in Names(merged) <==> n in Names(data) || n in Names(patch)
      ensures n in Names(merged) ==> Artifacts(merged)[n] == (Artifacts(data) + Artifacts(patch))[n]
    {
      NameIsKey(merged, n);
      NameIsKey(data, n);
      NameIsKey(patch, n);
    }
  }

  /** What a mailbox says after one more accepted completion. */
  lemma MergeDecoded(data: Data, patch: Data, req: Payload)
    requires IsPatch(patch, req)
    ensures Decoded(MergePatch(data, patch)) ==
            Payload(req.status, if req.message != "" then req.message else Decoded(data).message,
                    Decoded(data).artifacts + req.artifacts)
  {
    hide Artifacts, PatchKeys, KEY_STATUS, KEY_MESSAGE;
    ArtifactsMerge(data, patch);
  }

  ghost function Merged(patches: seq<Data>): Data {
    if patches == [] then map[]
    else MergePatch(Merged(patches[..|patches| - 1]), patches[|patches| - 1])
  }

  /** A sequence of accepted completions with the patches written for them. */
  ghost predicate AllAccepted(reqs: seq<Payload>, patches: seq<Data>, declared: seq<string>) {
    && |reqs| == |patches|
    && forall i :: 0 <= i < |reqs| ==> Acceptable(reqs[i], declared) && IsPatch(patches[i], reqs[i])
  }

  /** The last nonempty message: an empty one leaves the earlier message in place. */
  ghost function LastMessage(reqs: seq<Payload>): string {
    if reqs == [] then ""
    else if reqs[|reqs| - 1].message != "" then reqs[|reqs| - 1].message
    else LastMessage(reqs[..|reqs| - 1])
  }

  /** A mailbox the controller's validator has nothing against. */
  ghost predicate Sound(data: Data, declared: seq<string>) {
    NamesAgree(Decoded(data).status, Decoded(data).artifacts, declared)
  }

  lemma AcceptedKeepsSound(data: Data, patch: Data, req: Payload, declared: seq<string>)
    requires Sound(data, declared) && Acceptable(req, declared) && IsPatch(patch, req)
    ensures Sound(MergePatch(data, patch), declared)
  {
    hide Decoded, IsPatch, Total;
    MergeDecoded(data, patch, req);
  }

  lemma EmptyIsSound(declared: seq<string>)
    ensures Sound(map[], declared)
  {
    DecodedEmpty();
  }

  /**
    * Any sequence of accepted completions merged into an empty mailbox decodes
    * to the last status, the last nonempty message, and artifacts the
    * controller's validator accepts.
    */
  lemma {:induction false} MailboxSound(reqs: seq<Payload>, patches: seq<Data>, declared: seq<string>)
    requires AllAccepted(reqs, patches, declared)
    ensures Sound(Merged(patches), declared)
    ensures Decoded(Merged(patches)).status == if reqs == [] then "" else reqs[|reqs| - 1].status
    ensures Decoded(Merged(patches)).message == LastMessage(reqs)
    decreases |reqs|
  {
    hide Acceptable, IsPatch, Sound, Decoded;
    if reqs == [] {
      DecodedEmpty();
      EmptyIsSound(declared);
    } else {
      var n := |reqs| - 1;
      MailboxSound(reqs[..n], patches[..n], declared);
      MergeDecoded(Merged(patches[..n]), patches[n], reqs[n]);
      AcceptedKeepsSound(Merged(patches[..n]), patches[n], reqs[n], declared);
    }
  }
}
