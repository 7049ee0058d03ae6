// The backend's access layer: the bearer-token middleware, the role gate
// put in front of the staff routes, and the ownership test every
// self-service route performs before touching the store.

module Access {
  import opened Common

  /** The claims signed into a token at login. A user without a role row
      has a null role; a user that is not a patient (or not a doctor) has a
      null patientId (doctorId). */
  datatype Claims = Claims(id: int, username: string, role: Option<string>,
                           patientId: Option<int>, doctorId: Option<int>)

  datatype Denial = Denial(status: nat, message: string)

  /** The outcome of a middleware: the request goes on with the caller's
      claims, or it is answered with an error. */
  datatype Gate = Pass(claims: Claims) | Deny(denial: Denial)

  const MissingToken := Denial(401, "Access token required")
  const BadToken := Denial(403, "Invalid or expired token")
  const AccessDenied := Denial(403, "Access denied")

  /** authHeader && authHeader.split(' ')[1]: the second space-separated
      word of the Authorization header, if there is one. */
  function BearerToken(header: Option<string>): (t: Option<string>)
    ensures header.None? || header.value == "" ==> t.None?
    ensures t.Some? ==> ' ' !in t.value
  {
    if header.None? || header.value == "" then None
    else
      var words := Split(header.value, ' ');
      if |words| >= 2 then Some(words[1]) else None
  }

  /** authenticateToken. `verify` stands for jwt.verify with the server's
      secret: it yields the signed claims of a valid, unexpired token. */
  function Authenticate(header: Option<string>, verify: string -> Option<Claims>): (g: Gate)
    ensures g.Deny? ==> g.denial == MissingToken || g.denial == BadToken
  {
    var token := BearerToken(header);
    if token.None? || token.value == "" then Deny(MissingToken)
    else match verify(token.value)
      case None => Deny(BadToken)
      case Some(c) => Pass(c)
  }

  /** A missing or empty token is refused with 401, a token that does not
      verify with 403, and a token that verifies passes with its claims. */
  lemma AuthenticateCases(header: Option<string>, verify: string -> Option<Claims>)
    ensures var t := BearerToken(header);
            (Authenticate(header, verify) == Deny(MissingToken) <==> t.None? || t.value == "")
    ensures var t := BearerToken(header);
            t.Some? && t.value != "" && verify(t.value).None? <==>
              Authenticate(header, verify) == Deny(BadToken)
    ensures var t := BearerToken(header);
            Authenticate(header, verify).Pass? <==> t.Some? && t.value != "" && verify(t.value).Some?
    ensures Authenticate(header, verify).Pass? ==>
              Some(Authenticate(header, verify).claims) == verify(BearerToken(header).value)
  {
  }

  /** A header made of one word carries no token. */
  lemma OneWordHeaderRefused(word: string, verify: string -> Option<Claims>)
    requires ' ' !in word
    ensures Authenticate(Some(word), verify) == Deny(MissingToken)
  {
    if word != "" {
      var pieces := Split(word, ' ');
      assert Join([word], [' ']) == word;
      SplitJoin([word], ' ');
      assert pieces == [word];
    }
  }

  /** "Bearer <token>": the word after the scheme is the token. */
  lemma SchemeAndToken(scheme: string, token: string)
    requires ' ' !in scheme && ' ' !in token
    ensures BearerToken(Some(scheme + " " + token)) == Some(token)
  {
    assert Join([scheme, token], [' ']) == scheme + " " + token by {
      assert Join([token], [' ']) == token;
    }
    SplitJoin([scheme, token], ' ');
  }

  /** checkRole(roles): roles.includes(req.user.role). */
  function CheckRole(roles: seq<string>, c: Claims): (g: Gate)
    ensures g.Pass? ==> g.claims == c
  {
    if c.role.Some? && c.role.value in roles then Pass(c) else Deny(AccessDenied)
  }

  /** The role gate lets a caller through iff the caller's role is one of
      the route's roles; a caller with no role is refused whatever the list. */
  lemma CheckRoleCases(roles: seq<string>, c: Claims)
    ensures CheckRole(roles, c).Pass? <==> c.role.Some? && c.role.value in roles
    ensures CheckRole(roles, c).Deny? ==> CheckRole(roles, c).denial == AccessDenied
    ensures c.role.None? ==> CheckRole(roles, c) == Deny(AccessDenied)
  {
  }

  /** authenticateToken followed by checkRole(roles), the chain in front of
      every role-gated route. */
  function Admit(auth: Gate, roles: seq<string>): (g: Gate)
    ensures auth.Deny? ==> g == auth
    ensures auth.Pass? ==> g == CheckRole(roles, auth.claims)
  {
    match auth
    case Deny(d) => Deny(d)
    case Pass(c) => CheckRole(roles, c)
  }

  /** The role lists of the gated routes. */
  const RecordWriters := ["doctor", "admin"]
  const PrescriptionWriters := ["doctor", "admin"]
  const EmergencyResponders := ["admin", "staff"]
  const Searchers := ["doctor", "admin", "staff"]

  /** No role-gated route admits a caller whose user has no role row, nor a
      patient. */
  lemma GatedRoutesRefuseNullRoleAndPatients(auth: Gate)
    requires auth.Pass? && (auth.claims.role.None? || auth.claims.role == Some("patient"))
    ensures Admit(auth, RecordWriters) == Deny(AccessDenied)
    ensures Admit(auth, PrescriptionWriters) == Deny(AccessDenied)
    ensures Admit(auth, EmergencyResponders) == Deny(AccessDenied)
    ensures Admit(auth, Searchers) == Deny(AccessDenied)
  {
  }

  /** req.user.role === 'patient' && req.user.patientId != patient_id: the
      test that refuses a patient acting for another patient. A patient
      whose claim has no patientId never matches. */
  predicate ActsForOtherPatient(c: Claims, target: int) {
    c.role == Some("patient") && c.patientId != Some(target)
  }

  /** The ownership test refuses exactly the patients whose own patient id
      is not the target; every other role passes it. */
  lemma OwnershipCases(c: Claims, target: int)
    ensures c.role != Some("patient") ==> !ActsForOtherPatient(c, target)
    ensures c.role == Some("patient") ==>
              (ActsForOtherPatient(c, target) <==> c.patientId != Some(target))
    ensures c.role == Some("patient") && c.patientId.None? ==> ActsForOtherPatient(c, target)
  {
  }
}
