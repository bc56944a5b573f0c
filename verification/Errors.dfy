/** The error values that the protocol branches on: Go's wrapped errors, the SDK's HTTP errors,
    the package's not-found sentinel and the Kubernetes API's reasons. */
module Errors {
  /** Which call an error was wrapped by; stands for the text of the wrapping message. */
  datatype Op = OpShow | OpList | OpCreate | OpCollision | OpDelete | OpExpand | OpShowTags | OpAddTag | OpDeleteTag
              | OpChangeSg | OpMissing | OpTags | OpClaimRef | OpPvcSize | OpNoStatus

  datatype GoErr =
    | FsNotFound                       // the sentinel ErrFsNotFound
    | Service(code: int, msg: string)  // sdkerr.ServiceResponseError
    | Plain                            // anything else: a timeout, a lost connection, a nil response
    | ApiNotFound | ApiConflict | ApiOther
    | Wrap(op: Op, inner: GoErr)       // fmt.Errorf("...: %w", inner)

  /** errors.Is(e, ErrFsNotFound). */
  predicate IsFsNotFound(e: GoErr) {
    match e
    case FsNotFound => true
    case Wrap(_, inner) => IsFsNotFound(inner)
    case _ => false
  }

  /** The HTTP code of the service error that errors.As finds in the chain, or 0 when there is none. */
  function HttpCode(e: GoErr): int {
    match e
    case Service(code, _) => code
    case Wrap(_, inner) => HttpCode(inner)
    case _ => 0
  }

  function HttpText(e: GoErr): string {
    match e
    case Service(_, msg) => msg
    case Wrap(_, inner) => HttpText(inner)
    case _ => ""
  }

  predicate IsApiNotFound(e: GoErr) {
    match e
    case ApiNotFound => true
    case Wrap(_, inner) => IsApiNotFound(inner)
    case _ => false
  }

  function Classify(e: GoErr): GoErr {
    if HttpCode(e) == 404 then Wrap(OpMissing, FsNotFound) else e
  }

  predicate IsNotFound(e: GoErr) {
    HttpCode(e) == 404
  }

  predicate StartsAt(s: string, p: string, i: nat) {
    i + |p| <= |s| && s[i..i + |p|] == p
  }

  predicate Contains(s: string, p: string) {
    exists i | 0 <= i <= |s| :: StartsAt(s, p, i)
  }

  function ToLower(s: string): string {
    seq(|s|, i requires 0 <= i < |s| => if 'A' <= s[i] <= 'Z' then s[i] - 'A' + 'a' else s[i])
  }

  predicate IsNameAlreadyExists(e: GoErr) {
    && HttpCode(e) == 409
    && (|| Contains(HttpText(e), "SFS.TURBO.0009")
        || Contains(ToLower(HttpText(e)), "name have existed")
        || Contains(ToLower(HttpText(e)), "name already exists"))
  }

  /** What the reconciler sees of a failed SDK call: the classified error, wrapped with the call. */
  function Cooked(op: Op, e: GoErr): GoErr {
    Wrap(op, Classify(e))
  }

  /** The test that the create, poll and delete protocols branch on sees through every layer of
      wrapping: it holds exactly of an HTTP 404 found anywhere in the chain, or of the sentinel. */
  lemma CookedNotFound(op: Op, e: GoErr)
    ensures IsFsNotFound(Cooked(op, e)) <==> HttpCode(e) == 404 || IsFsNotFound(e)
    ensures IsNameAlreadyExists(e) ==> !IsNotFound(e) && (IsFsNotFound(Cooked(op, e)) <==> IsFsNotFound(e))
    ensures Classify(Classify(e)) == Classify(e)
    ensures HttpCode(e) == 404 ==> HttpCode(Classify(e)) == 0
  {
  }

  /** A chain holds one service error at most, so its end decides: no error is both a 404 and a
      name collision, and a chain that ends in a service error never satisfies the sentinel test. */
  lemma {:induction false} ChainEnd(e: GoErr)
    ensures IsFsNotFound(e) ==> HttpCode(e) == 0
    ensures HttpCode(e) != 0 ==> !IsFsNotFound(e) && !IsApiNotFound(e)
  {
    match e
    case Wrap(_, inner) => ChainEnd(inner);
    case _ =>
  }

  /** The error at the end of a chain of wrappings. */
  function Innermost(e: GoErr): GoErr {
    if e.Wrap? then Innermost(e.inner) else e
  }

  /** What every test reads is the end of the chain, however often it was wrapped. */
  lemma {:induction false} InnermostDecides(e: GoErr)
    ensures !Innermost(e).Wrap?
    ensures HttpCode(e) == if Innermost(e).Service? then Innermost(e).code else 0
    ensures HttpText(e) == if Innermost(e).Service? then Innermost(e).msg else ""
    ensures IsFsNotFound(e) <==> Innermost(e) == FsNotFound
    ensures IsApiNotFound(e) <==> Innermost(e) == ApiNotFound
  {
    if e.Wrap? { InnermostDecides(e.inner); }
  }

  /** `p` occurs in `s` at position i when the case of ASCII letters is ignored; `p` is in lower case. */
  predicate Spelled(s: string, p: string, i: nat) {
    && i + |p| <= |s|
    && forall k | 0 <= k < |p| :: s[i + k] == p[k] || ('A' <= s[i + k] <= 'Z' && s[i + k] as int + 32 == p[k] as int)
  }

  predicate Lower(p: string) { forall k | 0 <= k < |p| :: !('A' <= p[k] <= 'Z') }

  lemma FoldedAt(s: string, p: string, i: nat)
    requires Lower(p) && i <= |s|
    ensures StartsAt(ToLower(s), p, i) <==> Spelled(s, p, i)
  {
    var t := ToLower(s);
    if i + |p| <= |s| {
      if Spelled(s, p, i) {
        forall k | 0 <= k < |p| ensures t[i..i + |p|][k] == p[k] { assert t[i + k] == p[k]; }
        assert t[i..i + |p|] == p;
      }
      if StartsAt(t, p, i) {
        forall k | 0 <= k < |p| ensures t[i + k] == p[k] { assert t[i..i + |p|][k] == p[k]; }
      }
    }
  }

  lemma Folded(s: string, p: string)
    requires Lower(p)
    ensures Contains(ToLower(s), p) <==> exists i: nat :: Spelled(s, p, i)
  {
    if Contains(ToLower(s), p) {
      var i :| 0 <= i <= |s| && StartsAt(ToLower(s), p, i);
      FoldedAt(s, p, i);
    }
    if i: nat :| Spelled(s, p, i) {
      FoldedAt(s, p, i);
    }
  }

  /** A name is taken exactly when the chain ends in HTTP 409 with the service's code in its text, in
      just this case, or one of two phrases in any case. Everything else fails the creation. */
  lemma NameTakenExactly(e: GoErr)
    ensures IsNameAlreadyExists(e) <==>
              && Innermost(e).Service? && Innermost(e).code == 409
              && var msg := Innermost(e).msg;
                 || (exists i | 0 <= i <= |msg| :: "SFS.TURBO.0009" <= msg[i..])
                 || (exists i: nat :: Spelled(msg, "name have existed", i))
                 || (exists i: nat :: Spelled(msg, "name already exists", i))
  {
    hide Contains, ToLower, Spelled;
    InnermostDecides(e);
    var msg := HttpText(e);
    Exact(msg, "SFS.TURBO.0009");
    Folded(msg, "name have existed");
    Folded(msg, "name already exists");
  }

  lemma Exact(s: string, p: string)
    ensures Contains(s, p) <==> exists i | 0 <= i <= |s| :: p <= s[i..]
  {
    if i :| 0 <= i <= |s| && p <= s[i..] {
      assert s[i..i + |p|] == s[i..][..|p|];
      assert StartsAt(s, p, i);
    }
    if Contains(s, p) {
      var i :| 0 <= i <= |s| && StartsAt(s, p, i);
      assert s[i..][..|p|] == s[i..i + |p|];
    }
  }
}
