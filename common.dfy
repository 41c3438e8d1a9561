/** Values shared by both services: optional values, the verdict of a guard
    chain, and the responses the services hand back to the controllers. */
module Common {

  datatype Option<+T> = None | Some(value: T)

  /** The verdict of a guard chain: `Pass` where the services return null
      ("nothing wrong"), `Fail(message)` where they return a 400 response
      carrying that message. */
  datatype Check = Pass | Fail(message: string)

  /** One step of a guard chain: whether it rejects, and with what message. */
  datatype Guard = Guard(fails: bool, message: string)

  /** Runs a chain of guarded early returns: the first guard that fails
      decides the message, and the chain passes only if none fails. */
  function FirstFailure(guards: seq<Guard>): (r: Check)
    ensures r == Pass <==> forall j :: 0 <= j < |guards| ==> !guards[j].fails
    ensures r.Fail? ==> exists i :: 0 <= i < |guards| && guards[i].fails && r.message == guards[i].message
                                      && forall j :: 0 <= j < i ==> !guards[j].fails
  {
    if guards == [] then Pass
    else if guards[0].fails then Fail(guards[0].message)
    else
      var rest := FirstFailure(guards[1..]);
      assert forall j :: 1 <= j < |guards| ==> guards[j] == guards[1..][j - 1];
      rest
  }

  /** The guard at position i decides the verdict when it fails and every
      guard before it passes. */
  lemma {:induction false} FirstFailureAt(guards: seq<Guard>, i: nat)
    requires i < |guards| && guards[i].fails
    requires forall j :: 0 <= j < i ==> !guards[j].fails
    ensures FirstFailure(guards) == Fail(guards[i].message)
  {
    if i > 0 {
      assert guards[1..][i - 1] == guards[i];
      FirstFailureAt(guards[1..], i - 1);
    }
  }

  /** A non-empty set of ids has a member to pick (used by the loops that walk
      a query result). */
  lemma NonEmptyHasMember(s: set<int>)
    requires s != {}
    ensures exists x :: x in s
  {
    if !exists x :: x in s {
      assert false;
    }
  }

  /** The length Java's `String.length()` reports: it counts UTF-16 code
      units, so a character outside the Basic Multilingual Plane counts as
      two. */
  function JavaLength(s: string): (n: nat)
    ensures |s| <= n <= 2 * |s|
    ensures (forall i :: 0 <= i < |s| ==> (s[i] as int) < 0x1_0000) ==> n == |s|
  {
    if s == [] then 0
    else
      assert forall i :: 0 <= i < |s| - 1 ==> s[1..][i] == s[i + 1];
      (if (s[0] as int) >= 0x1_0000 then 2 else 1) + JavaLength(s[1..])
  }

  /** A string of n characters from outside the Basic Multilingual Plane has
      Java length 2n. */
  lemma {:induction false} SupplementaryCharsCountTwice(c: char, n: nat)
    requires (c as int) >= 0x1_0000
    ensures JavaLength(seq(n, _ => c)) == 2 * n
  {
    if n > 0 {
      assert seq(n, _ => c)[1..] == seq(n - 1, _ => c);
      SupplementaryCharsCountTwice(c, n - 1);
    }
  }

  /** What a service call answers, as the HTTP status it maps to. `Created`
      carries the id the store assigned. */
  datatype Response =
    | Created(id: int)     // 201
    | Ok                   // 200
    | NoContent            // 204
    | BadRequest(message: string)  // 400
    | Conflict(message: string)    // 409
    | NotFound             // 404
}
