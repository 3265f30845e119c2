/** Proof of work: a nonce whose hash begins with a given number of zero digits. */
module ProofOfWork {
  import Text

  // The hexadecimal digest of a string, left abstract.
  type Digest = string -> string

  function Puzzle(client: string, nonce: nat, model: string): string {
    client + ":" + Text.Decimal(nonce) + ":" + model
  }

  predicate ZeroDigits(h: string, n: int) {
    n <= |h| && forall i :: 0 <= i < n ==> h[i] == '0'
  }

  predicate Solves(digest: Digest, client: string, nonce: nat, model: string, difficulty: int) {
    difficulty > 0 ==>
      var h := digest(Puzzle(client, nonce, model));
      difficulty <= |h| && forall i :: 0 <= i < difficulty ==> h[i] == '0'
  }

  method Validate(digest: Digest, client: string, nonce: nat, model: string, difficulty: int) returns (ok: bool)
    ensures ok <==> Solves(digest, client, nonce, model, difficulty)
    ensures ok <==> difficulty <= 0
                    || ZeroDigits(digest(client + ":" + Text.Decimal(nonce) + ":" + model), difficulty)
  {
    if difficulty <= 0 {
      return true;
    }
    var h := digest(Puzzle(client, nonce, model));
    if difficulty > |h| {
      return false;
    }
    for i := 0 to difficulty
      invariant forall j :: 0 <= j < i ==> h[j] == '0'
    {
      if h[i] != '0' {
        return false;
      }
    }
    return true;
  }

  // The least nonce from `from` on, within the budget, that a provider with the same difficulty
  // accepts; zero if there is none.
  function LeastNonce(digest: Digest, client: string, model: string, difficulty: int, from: nat, budget: nat): nat
    decreases budget - from
  {
    if from >= budget then 0
    else if Solves(digest, client, from, model, difficulty) then from
    else LeastNonce(digest, client, model, difficulty, from + 1, budget)
  }

  method Solve(digest: Digest, client: string, model: string, difficulty: int, maxIterations: nat)
    returns (nonce: nat, ok: bool)
    ensures nonce == LeastNonce(digest, client, model, difficulty, 0, maxIterations)
    ensures ok ==> Solves(digest, client, nonce, model, difficulty)
    ensures ok ==> forall n: nat :: n < nonce ==> !Solves(digest, client, n, model, difficulty)
    ensures !ok ==> nonce == 0 && difficulty > 0
    ensures !ok ==> forall n: nat :: n < maxIterations ==> !Solves(digest, client, n, model, difficulty)
  {
    if difficulty <= 0 {
      return 0, true;
    }
    for i := 0 to maxIterations
      invariant forall n: nat :: n < i ==> !Solves(digest, client, n, model, difficulty)
      invariant LeastNonce(digest, client, model, difficulty, 0, maxIterations)
             == LeastNonce(digest, client, model, difficulty, i, maxIterations)
    {
      var valid := Validate(digest, client, i, model, difficulty);
      if valid {
        return i, true;
      }
    }
    return 0, false;
  }
}
