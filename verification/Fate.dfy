/**
 Where the environment decides whether something succeeds, and what is known of its decisions. What is not
 known is a free choice; knowing all of them singles out one course of an operation.
 */
module Fate {
  datatype Site =
    | Statement | RowRemoval | Recording
    | Unlocking | KeyParsing | Signing | KeyGeneration
    | Stating | Archiving | Promoting | Unarchiving | Discarding
    | OwnRead | OwnKeys | OwnCert
    | Dialing | Remote | Addresses

  type Fates = map<Site, bool>

  predicate Sure(fate: Fates, site: Site) {
    site in fate && fate[site]
  }

  predicate Sunk(fate: Fates, site: Site) {
    site in fate && !fate[site]
  }

  method Try(fate: Fates, site: Site) returns (ok: bool)
    ensures site in fate ==> ok == fate[site]
  {
    ok := *;
    if site in fate {
      ok := fate[site];
    }
  }
}
