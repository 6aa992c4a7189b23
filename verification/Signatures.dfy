/** Checking collected signatures before executeMint (backend/src/executor/mint-executor.ts). */
module Signatures {
  import opened Coins
  import opened MintMachine

  predicate Signs(recover: (Auth, nat) -> Option<nat>, auth: Auth, e: SigEntry) {
    recover(auth, e.sig) == Some(e.signer)
  }

  /** The signers who really signed this authorization somewhere in the list. */
  function ValidSigners(recover: (Auth, nat) -> Option<nat>, auth: Auth, sigs: seq<SigEntry>): set<nat> {
    set k | 0 <= k < |sigs| && Signs(recover, auth, sigs[k]) :: sigs[k].signer
  }

  function Signers(sigs: seq<SigEntry>): set<nat> {
    set k | 0 <= k < |sigs| :: sigs[k].signer
  }

  predicate DistinctSigners(sigs: seq<SigEntry>) {
    forall j, k :: 0 <= j < k < |sigs| ==> sigs[j].signer != sigs[k].signer
  }

  lemma ValidSignersSnoc(recover: (Auth, nat) -> Option<nat>, auth: Auth, sigs: seq<SigEntry>, k: nat)
    requires k < |sigs|
    ensures ValidSigners(recover, auth, sigs[..k + 1]) ==
            ValidSigners(recover, auth, sigs[..k]) + if Signs(recover, auth, sigs[k]) then {sigs[k].signer} else {}
  {
    var prefix, longer := sigs[..k], sigs[..k + 1];
    forall x | x in ValidSigners(recover, auth, prefix) ensures x in ValidSigners(recover, auth, longer) {
      var j :| 0 <= j < |prefix| && Signs(recover, auth, prefix[j]) && prefix[j].signer == x;
      assert longer[j] == prefix[j];
    }
    forall x | x in ValidSigners(recover, auth, longer) && !(Signs(recover, auth, sigs[k]) && x == sigs[k].signer)
      ensures x in ValidSigners(recover, auth, prefix)
    {
      var j :| 0 <= j < |longer| && Signs(recover, auth, longer[j]) && longer[j].signer == x;
      assert j < k && prefix[j] == longer[j];
    }
    if Signs(recover, auth, sigs[k]) { assert longer[k] == sigs[k]; }
  }

  /** One entry per signer who validly signed, whatever stale, duplicate or malformed entries surround them. */
  ghost predicate Kept(recover: (Auth, nat) -> Option<nat>, auth: Auth, sigs: seq<SigEntry>, out: seq<SigEntry>) {
    && (forall k :: 0 <= k < |out| ==> Signs(recover, auth, out[k]))
    && DistinctSigners(out)
    && Signers(out) == ValidSigners(recover, auth, sigs)
    && |out| == |ValidSigners(recover, auth, sigs)|
  }

  lemma KeptSkip(recover: (Auth, nat) -> Option<nat>, auth: Auth, sigs: seq<SigEntry>, i: nat, out: seq<SigEntry>)
    requires i < |sigs| && Kept(recover, auth, sigs[..i], out)
    requires !Signs(recover, auth, sigs[i]) || sigs[i].signer in Signers(out)
    ensures Kept(recover, auth, sigs[..i + 1], out)
  {
    ValidSignersSnoc(recover, auth, sigs, i);
    var known := ValidSigners(recover, auth, sigs[..i]);
    assert sigs[i].signer in known ==> known + {sigs[i].signer} == known;
    assert ValidSigners(recover, auth, sigs[..i + 1]) == known;
  }

  lemma KeptAdd(recover: (Auth, nat) -> Option<nat>, auth: Auth, sigs: seq<SigEntry>, i: nat, out: seq<SigEntry>)
    requires i < |sigs| && Kept(recover, auth, sigs[..i], out)
    requires Signs(recover, auth, sigs[i]) && sigs[i].signer !in Signers(out)
    ensures Kept(recover, auth, sigs[..i + 1], out + [sigs[i]])
  {
    ValidSignersSnoc(recover, auth, sigs, i);
    SignersSnoc(out, sigs[i]);
  }

  lemma KeptIsThreshold(recover: (Auth, nat) -> Option<nat>, auth: Auth, sigs: seq<SigEntry>, out: seq<SigEntry>)
    requires Kept(recover, auth, sigs, out)
    ensures |ValidSigners(recover, auth, sigs)| >= SIGNATURE_THRESHOLD <==> ThresholdMet(recover, auth, out)
  {
  }

  method Validate(recover: (Auth, nat) -> Option<nat>, auth: Auth, sigs: seq<SigEntry>) returns (out: seq<SigEntry>)
    ensures Kept(recover, auth, sigs, out)
    ensures forall e :: e in out ==> e in sigs
  {
    var seen: set<nat> := {};
    out := [];
    for i := 0 to |sigs|
      invariant Kept(recover, auth, sigs[..i], out) && seen == Signers(out)
      invariant forall e :: e in out ==> e in sigs
    {
      var e := sigs[i];
      if recover(auth, e.sig) == Some(e.signer) && e.signer !in seen {
        KeptAdd(recover, auth, sigs, i, out);
        SignersSnoc(out, e);
        seen := seen + {e.signer};
        out := out + [e];
      } else {
        KeptSkip(recover, auth, sigs, i, out);
      }
    }
    assert sigs[..|sigs|] == sigs;
  }

  lemma SignersSnoc(sigs: seq<SigEntry>, e: SigEntry)
    requires DistinctSigners(sigs) && e.signer !in Signers(sigs)
    ensures Signers(sigs + [e]) == Signers(sigs) + {e.signer} && DistinctSigners(sigs + [e])
  {
    var longer := sigs + [e];
    assert longer[|sigs|] == e;
    forall x | x in Signers(sigs) ensures x in Signers(longer) {
      var j :| 0 <= j < |sigs| && sigs[j].signer == x;
      assert longer[j] == sigs[j];
    }
    forall j | 0 <= j < |sigs| ensures longer[j].signer in Signers(sigs) { assert longer[j] == sigs[j]; }
  }
}
