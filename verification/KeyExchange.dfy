// backend/crypto/kex_handlers.py: the two sides of the key exchange as programs over two FIFO
// channels, in all three modes, after the mode marker.

module KeyExchange {
  import opened Bytes
  import opened DiffieHellman

  datatype Mode = DH | MLKEM | Hybrid

  // The library primitives. params and keys are the PEM encodings of a group and of a public value.
  datatype Suite = Suite(
    kemPublic: bytes -> bytes,
    encapsulate: (bytes, bytes) -> (bytes, bytes),
    decapsulate: (bytes, bytes) -> bytes,
    xPublic: bytes -> bytes,
    xShared: (bytes, bytes) -> bytes,
    hkdf: (bytes, bytes) -> bytes,
    encParams: (nat, nat) -> bytes,
    decParams: bytes -> (nat, nat),
    encKey: (nat, nat, nat) -> bytes,
    decKey: bytes -> (nat, nat, nat),
    encSecret: (nat, nat) -> bytes)

  // Sections 7.2 and 7.3 of FIPS 203, section 6.1 of RFC 7748, section 2 of RFC 5869, and PEM as an
  // inverse pair.
  ghost predicate Lawful(u: Suite)
  {
    && (forall sk, coins :: u.decapsulate(sk, u.encapsulate(u.kemPublic(sk), coins).0)
                            == u.encapsulate(u.kemPublic(sk), coins).1)
    && (forall a, b :: u.xShared(a, u.xPublic(b)) == u.xShared(b, u.xPublic(a)))
    && (forall ikm, info :: |u.hkdf(ikm, info)| == 32)
    && (forall p: nat, g: nat :: u.decParams(u.encParams(p, g)) == (p, g))
    && (forall p: nat, g: nat, y: nat :: u.decKey(u.encKey(p, g, y)) == (p, g, y))
  }

  // The laws can be met together.
  lemma LawfulSuiteExists() returns (u: Suite)
    ensures Lawful(u)
  {
    u := Suite(
      sk => sk, (pk, coins) => (coins, pk + coins), (sk, ct) => sk + ct,
      x => [], (x, y) => [], (ikm, info) => seq(32, k => 0),
      Pair, b => (Count(b), Count(Rest(b))),
      Triple, b => (Count(b), Count(Rest(b)), Count(Rest(Rest(b)))), (z, p) => []);
    forall p: nat, g: nat
      ensures (Count(Pair(p, g)), Count(Rest(Pair(p, g)))) == (p, g)
    {
      PairReads(p, g);
    }
    forall p: nat, g: nat, y: nat
      ensures var b := Triple(p, g, y); (Count(b), Count(Rest(b)), Count(Rest(Rest(b)))) == (p, g, y)
    {
      CountUnary(p, [1] + Pair(g, y));
      PairReads(g, y);
    }
  }

  function Pair(a: nat, b: nat): bytes
  {
    Unary(a) + ([1] + Unary(b))
  }

  function Triple(a: nat, b: nat, c: nat): bytes
  {
    Unary(a) + ([1] + Pair(b, c))
  }

  lemma PairReads(a: nat, b: nat)
    ensures Count(Pair(a, b)) == a && Count(Rest(Pair(a, b))) == b
  {
    CountUnary(a, [1] + Unary(b));
    CountUnary(b, []);
    assert Unary(b) + [] == Unary(b);
  }

  function Unary(n: nat): bytes
  {
    seq(n, k => 0)
  }

  function Count(b: bytes): nat
  {
    if b == [] || b[0] != 0 then 0 else 1 + Count(b[1..])
  }

  function Rest(b: bytes): bytes
  {
    if b == [] then [] else if b[0] != 0 then b[1..] else Rest(b[1..])
  }

  lemma {:induction false} CountUnary(n: nat, b: bytes)
    requires b == [] || b[0] == 1
    ensures Count(Unary(n) + b) == n
    ensures Rest(Unary(n) + b) == if b == [] then [] else b[1..]
  {
    if n == 0 {
      assert Unary(0) + b == b;
    } else {
      assert (Unary(n) + b)[1..] == Unary(n - 1) + b;
      CountUnary(n - 1, b);
    }
  }

  // ------------------------------------------------------------------
  // What each side sends and computes
  // ------------------------------------------------------------------

  datatype ServerSecrets = ServerSecrets(p: nat, g: nat, x: nat, kemKey: bytes, xKey: bytes)

  datatype ClientSecrets = ClientSecrets(y: nat, coins: bytes, xKey: bytes)

  function ServerSends(u: Suite, mode: Mode, k: ServerSecrets): seq<bytes>
    requires k.p > 1
  {
    match mode
    case DH => [u.encParams(k.p, k.g), u.encKey(k.p, k.g, PowMod(k.g, k.x, k.p))]
    case MLKEM => [u.kemPublic(k.kemKey)]
    case Hybrid => [u.kemPublic(k.kemKey), u.xPublic(k.xKey)]
  }

  function ServerNeeds(mode: Mode): nat
  {
    match mode
    case DH => 1
    case MLKEM => 1
    case Hybrid => 2
  }

  function ClientNeeds(mode: Mode): nat
  {
    match mode
    case DH => 2
    case MLKEM => 1
    case Hybrid => 2
  }

  // The client takes the group from the wire. A modulus of zero cannot be loaded; the client then
  // stops, which sending nothing stands for.
  function ClientSends(u: Suite, mode: Mode, k: ClientSecrets, got: seq<bytes>): seq<bytes>
    requires |got| == ClientNeeds(mode)
  {
    match mode
    case DH =>
      var (p, g) := u.decParams(got[0]);
      if p == 0 then [] else [u.encKey(p, g, PowMod(g, k.y, p))]
    case MLKEM => [u.encapsulate(got[0], k.coins).0]
    case Hybrid => [u.encapsulate(got[0], k.coins).0, u.xPublic(k.xKey)]
  }

  // The private key's exchange with a peer key: it raises when the groups differ.
  function Exchange(u: Suite, p: nat, g: nat, exponent: nat, peer: bytes): Option<bytes>
  {
    var (p', g', y) := u.decKey(peer);
    if p == 0 || p' != p || g' != g then None else Some(u.encSecret(PowMod(y, exponent, p), p))
  }

  function Combine(u: Suite, kemSecret: bytes, xSecret: bytes): bytes
  {
    u.hkdf(kemSecret + xSecret, Info("tls13 hybrid"))
  }

  function Info(s: string): bytes
  {
    seq(|s|, k requires 0 <= k < |s| => (s[k] as int) % 256)
  }

  function ServerSecret(u: Suite, mode: Mode, k: ServerSecrets, got: seq<bytes>): Option<bytes>
    requires |got| == ServerNeeds(mode)
  {
    match mode
    case DH => Exchange(u, k.p, k.g, k.x, got[0])
    case MLKEM => Some(u.decapsulate(k.kemKey, got[0]))
    case Hybrid => Some(Combine(u, u.decapsulate(k.kemKey, got[0]), u.xShared(k.xKey, got[1])))
  }

  function ClientSecret(u: Suite, mode: Mode, k: ClientSecrets, got: seq<bytes>): Option<bytes>
    requires |got| == ClientNeeds(mode)
  {
    match mode
    case DH =>
      var (p, g) := u.decParams(got[0]);
      Exchange(u, p, g, k.y, got[1])
    case MLKEM => Some(u.encapsulate(got[0], k.coins).1)
    case Hybrid => Some(Combine(u, u.encapsulate(got[0], k.coins).1, u.xShared(k.xKey, got[1])))
  }

  function AesKey(u: Suite, secret: bytes): bytes
  {
    u.hkdf(secret, Info("secure-chat aes key"))
  }

  // ------------------------------------------------------------------
  // The two programs over their channels
  // ------------------------------------------------------------------

  datatype Config = Config(u: Suite, serverMode: Mode, clientMode: Mode, srv: ServerSecrets, cli: ClientSecrets)

  // Each side's progress: what it received, how many frames it sent, and whether the server has
  // refused the mode; then the two channels.
  datatype System = System(
    serverGot: seq<bytes>, serverSent: nat, refused: bool,
    clientGot: seq<bytes>, clientSent: nat,
    toServer: seq<bytes>, toClient: seq<bytes>)

  function Marker(mode: Mode): bytes
  {
    match mode
    case DH => Info("dh")
    case MLKEM => Info("ml_kem")
    case Hybrid => Info("hybrid")
  }

  const MISMATCH: bytes := [0]

  const START: System := System([], 0, false, [], 0, [], [])

  // The next step of handle_client up to the shared secret; None while it waits or when it is done.
  function ServerStep(c: Config, s: System): Option<System>
    requires c.srv.p > 1
  {
    var sends := ServerSends(c.u, c.serverMode, c.srv);
    if s.refused then None
    else if s.serverGot == [] then
      if s.toServer == [] then None
      else if s.toServer[0] == Marker(c.serverMode)
      then Some(s.(serverGot := [s.toServer[0]], toServer := s.toServer[1..]))
      else Some(s.(refused := true, toServer := s.toServer[1..], toClient := s.toClient + [MISMATCH]))
    else if s.serverSent < |sends| then
      Some(s.(serverSent := s.serverSent + 1, toClient := s.toClient + [sends[s.serverSent]]))
    else if |s.serverGot| < 1 + ServerNeeds(c.serverMode) && s.toServer != [] then
      Some(s.(serverGot := s.serverGot + [s.toServer[0]], toServer := s.toServer[1..]))
    else None
  }

  // The next step of run_chat_client up to the shared secret.
  function ClientStep(c: Config, s: System): Option<System>
  {
    if s.clientSent == 0 then Some(s.(clientSent := 1, toServer := s.toServer + [Marker(c.clientMode)]))
    else if |s.clientGot| < ClientNeeds(c.clientMode) then
      if s.toClient == [] then None
      else Some(s.(clientGot := s.clientGot + [s.toClient[0]], toClient := s.toClient[1..]))
    else if |s.clientGot| > ClientNeeds(c.clientMode) then None
    else
      var sends := ClientSends(c.u, c.clientMode, c.cli, s.clientGot);
      if s.clientSent - 1 < |sends|
      then Some(s.(clientSent := s.clientSent + 1, toServer := s.toServer + [sends[s.clientSent - 1]]))
      else None
  }

  // One scheduling decision; a side that cannot move stays put.
  function Move(c: Config, s: System, server: bool): System
    requires c.srv.p > 1
  {
    match if server then ServerStep(c, s) else ClientStep(c, s)
    case Some(t) => t
    case None => s
  }

  function RunKex(c: Config, s: System, schedule: seq<bool>): System
    requires c.srv.p > 1
    decreases |schedule|
  {
    if schedule == [] then s else RunKex(c, Move(c, s, schedule[0]), schedule[1..])
  }

  // ------------------------------------------------------------------
  // Agreeing modes
  // ------------------------------------------------------------------

  // Everything the client sends in a complete exchange, marker first.
  function ClientScript(c: Config): seq<bytes>
    requires c.srv.p > 1 && c.clientMode == c.serverMode
  {
    [Marker(c.clientMode)] + ClientSends(c.u, c.clientMode, c.cli, ServerSends(c.u, c.serverMode, c.srv))
  }

  ghost predicate KexInv(c: Config, s: System)
    requires c.srv.p > 1 && c.clientMode == c.serverMode
  {
    var fromServer := ServerSends(c.u, c.serverMode, c.srv);
    var fromClient := ClientScript(c);
    && !s.refused
    && |s.clientGot| <= s.serverSent <= |fromServer|
    && |s.serverGot| <= s.clientSent <= |fromClient|
    && s.clientGot == fromServer[..|s.clientGot|] && s.toClient == fromServer[|s.clientGot|..s.serverSent]
    && s.serverGot == fromClient[..|s.serverGot|] && s.toServer == fromClient[|s.serverGot|..s.clientSent]
    && (s.serverGot == [] ==> s.serverSent == 0)
    && (s.clientSent > 1 ==> |s.clientGot| == |fromServer|)
    && (|s.serverGot| > 1 ==> s.serverSent == |fromServer|)
  }

  // Frames still to be sent or received, on both sides.
  function Remaining(c: Config, s: System): int
    requires c.srv.p > 1 && c.clientMode == c.serverMode
  {
    2 * (|ServerSends(c.u, c.serverMode, c.srv)| + |ClientScript(c)|)
    - s.serverSent - |s.clientGot| - s.clientSent - |s.serverGot|
  }

  ghost predicate Finished(c: Config, s: System)
  {
    && |s.serverGot| == 1 + ServerNeeds(c.serverMode)
    && |s.clientGot| == ClientNeeds(c.clientMode)
  }

  // Both programs returned, with the same secret, and nothing is left on either channel.
  ghost predicate Agreed(c: Config, s: System)
  {
    && Finished(c, s)
    && s.toServer == [] && s.toClient == []
    && var atServer := ServerSecret(c.u, c.serverMode, c.srv, s.serverGot[1..]);
       var atClient := ClientSecret(c.u, c.clientMode, c.cli, s.clientGot);
       && atServer.Some? && atClient == atServer
       && AesKey(c.u, atClient.value) == AesKey(c.u, atServer.value)
       && |AesKey(c.u, atServer.value)| == 32
  }

  lemma ScriptLengths(c: Config)
    requires Lawful(c.u) && c.srv.p > 1 && c.clientMode == c.serverMode
    ensures |ServerSends(c.u, c.serverMode, c.srv)| == ClientNeeds(c.clientMode)
    ensures |ClientScript(c)| == 1 + ServerNeeds(c.serverMode)
  {
  }

  lemma ServerSendKeeps(c: Config, s: System)
    requires c.srv.p > 1 && c.clientMode == c.serverMode && KexInv(c, s)
    requires s.serverGot != [] && s.serverSent < |ServerSends(c.u, c.serverMode, c.srv)|
    ensures KexInv(c, s.(serverSent := s.serverSent + 1,
                         toClient := s.toClient + [ServerSends(c.u, c.serverMode, c.srv)[s.serverSent]]))
  {
    hide ServerSends, ClientScript;
    SentOne(ServerSends(c.u, c.serverMode, c.srv), |s.clientGot|, s.serverSent);
  }

  lemma ServerReceiveKeeps(c: Config, s: System)
    requires c.srv.p > 1 && c.clientMode == c.serverMode && KexInv(c, s)
    requires s.toServer != [] && (s.serverGot == [] || s.serverSent == |ServerSends(c.u, c.serverMode, c.srv)|)
    ensures KexInv(c, s.(serverGot := s.serverGot + [s.toServer[0]], toServer := s.toServer[1..]))
    ensures s.serverGot == [] ==> s.toServer[0] == ClientScript(c)[0]
  {
    hide ServerSends, ClientScript;
    ReceivedOne(ClientScript(c), |s.serverGot|, s.clientSent);
  }

  lemma ServerStepKeeps(c: Config, s: System)
    requires Lawful(c.u) && c.srv.p > 1 && c.clientMode == c.serverMode && KexInv(c, s)
    requires ServerStep(c, s).Some?
    ensures KexInv(c, ServerStep(c, s).value) && Remaining(c, ServerStep(c, s).value) == Remaining(c, s) - 1
  {
    hide Lawful, ServerSends, ClientSends, KexInv;
    ScriptLengths(c);
    NotRefused(c, s);
    if s.serverGot == [] || s.serverSent >= |ServerSends(c.u, c.serverMode, c.srv)| {
      ServerReceiveKeeps(c, s);
      assert [] + [s.toServer[0]] == [s.toServer[0]];
    } else {
      ServerSendKeeps(c, s);
    }
  }

  lemma NotRefused(c: Config, s: System)
    requires c.srv.p > 1 && c.clientMode == c.serverMode && KexInv(c, s)
    ensures !s.refused && s.serverSent <= |ServerSends(c.u, c.serverMode, c.srv)|
  {
  }

  lemma ClientSendKeeps(c: Config, s: System)
    requires c.srv.p > 1 && c.clientMode == c.serverMode && KexInv(c, s)
    requires s.clientSent < |ClientScript(c)|
    requires s.clientSent > 0 ==> |s.clientGot| == |ServerSends(c.u, c.serverMode, c.srv)|
    ensures KexInv(c, s.(clientSent := s.clientSent + 1, toServer := s.toServer + [ClientScript(c)[s.clientSent]]))
  {
    hide ServerSends, ClientScript;
    SentOne(ClientScript(c), |s.serverGot|, s.clientSent);
  }

  lemma ClientReceiveKeeps(c: Config, s: System)
    requires c.srv.p > 1 && c.clientMode == c.serverMode && KexInv(c, s)
    requires s.toClient != [] && s.clientSent <= 1
    ensures KexInv(c, s.(clientGot := s.clientGot + [s.toClient[0]], toClient := s.toClient[1..]))
  {
    hide ServerSends, ClientScript;
    ReceivedOne(ServerSends(c.u, c.serverMode, c.srv), |s.clientGot|, s.serverSent);
  }

  lemma ClientStepKeeps(c: Config, s: System)
    requires Lawful(c.u) && c.srv.p > 1 && c.clientMode == c.serverMode && KexInv(c, s)
    requires ClientStep(c, s).Some?
    ensures KexInv(c, ClientStep(c, s).value) && Remaining(c, ClientStep(c, s).value) == Remaining(c, s) - 1
  {
    hide Lawful, ServerSends, ClientSends;
    ScriptLengths(c);
    if s.clientSent > 0 && |s.clientGot| < ClientNeeds(c.clientMode) {
      ClientReceiveKeeps(c, s);
    } else {
      assert s.clientSent > 0 ==> s.clientGot == ServerSends(c.u, c.serverMode, c.srv);
      ClientSendKeeps(c, s);
    }
  }

  // A channel holds the part of a script between what was received and what was sent.
  lemma SentOne(script: seq<bytes>, got: nat, sent: nat)
    requires got <= sent < |script|
    ensures script[got..sent + 1] == script[got..sent] + [script[sent]]
  {
  }

  lemma ReceivedOne(script: seq<bytes>, got: nat, sent: nat)
    requires got <= sent <= |script|
    ensures got < sent ==>
              && script[got..sent][0] == script[got] && script[got..sent][1..] == script[got + 1..sent]
              && script[..got + 1] == script[..got] + [script[got]]
  {
  }

  lemma {:induction false} RunKeeps(c: Config, s: System, schedule: seq<bool>)
    requires Lawful(c.u) && c.srv.p > 1 && c.clientMode == c.serverMode && KexInv(c, s)
    ensures KexInv(c, RunKex(c, s, schedule)) && Remaining(c, RunKex(c, s, schedule)) <= Remaining(c, s)
    decreases |schedule|
  {
    if schedule != [] {
      var t := Move(c, s, schedule[0]);
      if schedule[0] && ServerStep(c, s).Some? {
        ServerStepKeeps(c, s);
      } else if !schedule[0] && ClientStep(c, s).Some? {
        ClientStepKeeps(c, s);
      }
      RunKeeps(c, t, schedule[1..]);
    }
  }

  // The classical, post-quantum and combined secrets agree once both transcripts are complete.
  lemma SecretsMatch(c: Config)
    requires Lawful(c.u) && c.srv.p > 1 && c.clientMode == c.serverMode
    ensures var got := ServerSends(c.u, c.serverMode, c.srv);
            |got| == ClientNeeds(c.clientMode)
            && var back := ClientSends(c.u, c.clientMode, c.cli, got);
               |back| == ServerNeeds(c.serverMode)
               && ServerSecret(c.u, c.serverMode, c.srv, back).Some?
               && ServerSecret(c.u, c.serverMode, c.srv, back) == ClientSecret(c.u, c.clientMode, c.cli, got)
  {
    ScriptLengths(c);
    if c.serverMode == DH {
      SecretsAgree(c.srv.p, c.srv.g, c.srv.x, c.cli.y);
    }
  }

  // A classical peer key from another group is refused; one from the same group gives its power.
  lemma GroupsMustMatch(u: Suite, p: nat, g: nat, x: nat, p': nat, g': nat, y: nat)
    requires Lawful(u)
    ensures Exchange(u, p, g, x, u.encKey(p', g', y))
            == if p == 0 || p' != p || g' != g then None else Some(u.encSecret(Pow(y, x) % p, p))
  {
  }

  // The info strings of the two derivations, and the mode markers, byte by byte.
  const TLS13_HYBRID: bytes := [116, 108, 115, 49, 51, 32, 104, 121, 98, 114, 105, 100]
  const SECURE_CHAT_AES_KEY: bytes :=
    [115, 101, 99, 117, 114, 101, 45, 99, 104, 97, 116, 32, 97, 101, 115, 32, 107, 101, 121]

  lemma InfoStrings()
    ensures Info("tls13 hybrid") == TLS13_HYBRID && Info("secure-chat aes key") == SECURE_CHAT_AES_KEY
    ensures Marker(DH) == [100, 104] && Marker(MLKEM) == [109, 108, 95, 107, 101, 109]
    ensures Marker(Hybrid) == [104, 121, 98, 114, 105, 100]
  {
  }

  // What an exchange comes to, in terms of the two sides' own secrets. Classical: g to the product of
  // the exponents modulo p. Post-quantum: the encapsulated secret. Hybrid: the derivation of the
  // encapsulated secret followed by the X25519 secret, under its own info string.
  function AgreedSecret(c: Config): bytes
    requires c.srv.p > 1
  {
    match c.serverMode
    case DH => c.u.encSecret(Pow(c.srv.g, c.srv.x * c.cli.y) % c.srv.p, c.srv.p)
    case MLKEM => c.u.encapsulate(c.u.kemPublic(c.srv.kemKey), c.cli.coins).1
    case Hybrid =>
      c.u.hkdf(c.u.encapsulate(c.u.kemPublic(c.srv.kemKey), c.cli.coins).1
               + c.u.xShared(c.cli.xKey, c.u.xPublic(c.srv.xKey)), TLS13_HYBRID)
  }

  // Every frame of a complete exchange, in order, in each direction.
  function ServerFrames(c: Config): seq<bytes>
    requires c.srv.p > 1
  {
    match c.serverMode
    case DH => [c.u.encParams(c.srv.p, c.srv.g), c.u.encKey(c.srv.p, c.srv.g, Pow(c.srv.g, c.srv.x) % c.srv.p)]
    case MLKEM => [c.u.kemPublic(c.srv.kemKey)]
    case Hybrid => [c.u.kemPublic(c.srv.kemKey), c.u.xPublic(c.srv.xKey)]
  }

  function ClientFrames(c: Config): seq<bytes>
    requires c.srv.p > 1
  {
    match c.serverMode
    case DH => [[100, 104], c.u.encKey(c.srv.p, c.srv.g, Pow(c.srv.g, c.cli.y) % c.srv.p)]
    case MLKEM => [[109, 108, 95, 107, 101, 109], c.u.encapsulate(c.u.kemPublic(c.srv.kemKey), c.cli.coins).0]
    case Hybrid =>
      [[104, 121, 98, 114, 105, 100], c.u.encapsulate(c.u.kemPublic(c.srv.kemKey), c.cli.coins).0, c.u.xPublic(c.cli.xKey)]
  }

  lemma ScriptValues(c: Config)
    requires Lawful(c.u) && c.srv.p > 1 && c.clientMode == c.serverMode
    ensures ServerSends(c.u, c.serverMode, c.srv) == ServerFrames(c) && ClientScript(c) == ClientFrames(c)
  {
    InfoStrings();
  }

  lemma SecretValue(c: Config)
    requires Lawful(c.u) && c.srv.p > 1 && c.clientMode == c.serverMode
    ensures |ServerFrames(c)| == ClientNeeds(c.clientMode) && |ClientFrames(c)| == 1 + ServerNeeds(c.serverMode)
    ensures ClientSecret(c.u, c.clientMode, c.cli, ServerFrames(c)) == Some(AgreedSecret(c))
  {
    InfoStrings();
    if c.serverMode == DH {
      SecretsAgree(c.srv.p, c.srv.g, c.cli.y, c.srv.x);
      assert c.cli.y * c.srv.x == c.srv.x * c.cli.y;
    }
  }

  // Once an exchange is complete, under whatever schedule, exactly these frames went over the two
  // channels, both sides hold exactly this secret, and their AES key is derived from it under its own
  // info string.
  lemma KexValue(c: Config, schedule: seq<bool>)
    requires Lawful(c.u) && c.srv.p > 1 && c.clientMode == c.serverMode
    requires Remaining(c, RunKex(c, START, schedule)) == 0
    ensures var s := RunKex(c, START, schedule);
            && s.serverGot == ClientFrames(c) && s.clientGot == ServerFrames(c)
            && Finished(c, s)
            && ServerSecret(c.u, c.serverMode, c.srv, s.serverGot[1..]) == Some(AgreedSecret(c))
            && ClientSecret(c.u, c.clientMode, c.cli, s.clientGot) == Some(AgreedSecret(c))
            && AesKey(c.u, AgreedSecret(c)) == c.u.hkdf(AgreedSecret(c), SECURE_CHAT_AES_KEY)
  {
    hide Lawful, ServerSends, ClientScript, AgreedSecret, ServerFrames, ClientFrames, ServerSecret, ClientSecret;
    var s := RunKex(c, START, schedule);
    ScriptLengths(c);
    RunKeeps(c, START, schedule);
    KexAgrees(c, schedule);
    ScriptValues(c);
    SecretValue(c);
    InfoStrings();
    assert s.clientGot == ServerSends(c.u, c.serverMode, c.srv) && s.serverGot == ClientScript(c);
  }

  // Some side can move as long as a frame operation is left.
  lemma KexProgress(c: Config, s: System)
    requires Lawful(c.u) && c.srv.p > 1 && c.clientMode == c.serverMode && KexInv(c, s)
    ensures Remaining(c, s) >= 0
    ensures ServerStep(c, s).None? && ClientStep(c, s).None? <==> Remaining(c, s) == 0
  {
    ScriptLengths(c);
  }

  // Key exchange cannot deadlock, and it agrees. Under every schedule of the two sides: as long as
  // not both have finished one of them can move; every move uses up one of a fixed number of frame
  // operations; and when none is left both hold the same secret and AES key, on empty channels.
  lemma KexAgrees(c: Config, schedule: seq<bool>)
    requires Lawful(c.u) && c.srv.p > 1 && c.clientMode == c.serverMode
    ensures var s := RunKex(c, START, schedule);
            && 0 <= Remaining(c, s) <= Remaining(c, START)
            && (ServerStep(c, s).None? && ClientStep(c, s).None? <==> Remaining(c, s) == 0)
            && (Remaining(c, s) == 0 ==> Agreed(c, s))
            && (ServerStep(c, s).Some? ==> Remaining(c, ServerStep(c, s).value) == Remaining(c, s) - 1)
            && (ClientStep(c, s).Some? ==> Remaining(c, ClientStep(c, s).value) == Remaining(c, s) - 1)
  {
    var s := RunKex(c, START, schedule);
    ScriptLengths(c);
    RunKeeps(c, START, schedule);
    KexProgress(c, s);
    var fromServer, fromClient := ServerSends(c.u, c.serverMode, c.srv), ClientScript(c);
    if ServerStep(c, s).Some? {
      ServerStepKeeps(c, s);
    }
    if ClientStep(c, s).Some? {
      ClientStepKeeps(c, s);
    }
    if Remaining(c, s) == 0 {
      assert s.clientGot == fromServer && s.serverGot == fromClient;
      SecretsMatch(c);
      assert fromClient[1..] == ClientSends(c.u, c.clientMode, c.cli, fromServer);
    }
  }

  lemma {:induction false} FinishFrom(c: Config, s: System) returns (schedule: seq<bool>)
    requires Lawful(c.u) && c.srv.p > 1 && c.clientMode == c.serverMode && KexInv(c, s)
    ensures Remaining(c, RunKex(c, s, schedule)) == 0
    decreases Remaining(c, s)
  {
    hide Lawful, KexInv, ServerStep, ClientStep, Remaining;
    KexProgress(c, s);
    if ServerStep(c, s).Some? {
      ServerStepKeeps(c, s);
      var rest := FinishFrom(c, ServerStep(c, s).value);
      schedule := [true] + rest;
      assert schedule[1..] == rest;
    } else if ClientStep(c, s).Some? {
      ClientStepKeeps(c, s);
      var rest := FinishFrom(c, ClientStep(c, s).value);
      schedule := [false] + rest;
      assert schedule[1..] == rest;
    } else {
      schedule := [];
    }
  }

  // However far an exchange has got, some way of going on completes it; so complete schedules exist,
  // and by the theorem above they end in agreement.
  lemma KexCompletes(c: Config, started: seq<bool>) returns (schedule: seq<bool>)
    requires Lawful(c.u) && c.srv.p > 1 && c.clientMode == c.serverMode
    ensures started <= schedule && Remaining(c, RunKex(c, START, schedule)) == 0
  {
    ScriptLengths(c);
    RunKeeps(c, START, started);
    var rest := FinishFrom(c, RunKex(c, START, started));
    RunKexAppend(c, START, started, rest);
    schedule := started + rest;
  }

  lemma {:induction false} RunKexAppend(c: Config, s: System, a: seq<bool>, b: seq<bool>)
    requires c.srv.p > 1
    ensures RunKex(c, s, a + b) == RunKex(c, RunKex(c, s, a), b)
    decreases |a|
  {
    if a == [] {
      assert a + b == b;
    } else {
      assert (a + b)[1..] == a[1..] + b;
      RunKexAppend(c, Move(c, s, a[0]), a[1..], b);
    }
  }

  // ------------------------------------------------------------------
  // Different modes
  // ------------------------------------------------------------------

  lemma MarkersDiffer(a: Mode, b: Mode)
    requires a != b
    ensures Marker(a) != Marker(b)
  {
    assert |Info("dh")| == 2 && |Info("ml_kem")| == 6 && |Info("hybrid")| == 6;
    assert Info("ml_kem")[0] == 109 && Info("hybrid")[0] == 104;
  }

  ghost predicate MismatchInv(c: Config, s: System)
  {
    && s.serverGot == [] && s.serverSent == 0
    && s.clientGot + s.toClient == (if s.refused then [MISMATCH] else [])
    && (!s.refused && s.clientSent > 0 ==> s.toServer == [Marker(c.clientMode)] && s.clientSent == 1)
    && (s.clientSent == 0 ==> s.toServer == [] && !s.refused)
  }

  lemma {:induction false} MismatchRuns(c: Config, s: System, schedule: seq<bool>)
    requires c.srv.p > 1 && c.clientMode != c.serverMode && MismatchInv(c, s)
    ensures MismatchInv(c, RunKex(c, s, schedule))
    decreases |schedule|
  {
    MarkersDiffer(c.clientMode, c.serverMode);
    if schedule != [] {
      var t := Move(c, s, schedule[0]);
      if !schedule[0] && t.clientGot != s.clientGot {
        assert t.clientGot + t.toClient == s.clientGot + s.toClient;
      }
      MismatchRuns(c, t, schedule[1..]);
    }
  }

  // With different modes the server sends the error and nothing else: no schedule makes it send or
  // compute anything of the exchange, and once the marker has arrived its next move is the refusal.
  lemma MismatchRefused(c: Config, schedule: seq<bool>)
    requires c.srv.p > 1 && c.clientMode != c.serverMode
    ensures var t := RunKex(c, START, schedule);
            && t.serverGot == [] && t.serverSent == 0
            && t.clientGot + t.toClient == (if t.refused then [MISMATCH] else [])
            && (t.clientSent > 0 && !t.refused ==> ServerStep(c, t).Some? && ServerStep(c, t).value.refused)
  {
    MarkersDiffer(c.clientMode, c.serverMode);
    MismatchRuns(c, START, schedule);
  }
}
