/** Which commands take a second key: the confirm-all switch, and the list in the policy file. */
module Confirming {
  import opened Protocol
  import Policy

  /** What the waiters read of the settings and the policy file. */
  function ConfigOf(confirmAll: bool, p: Policy.Policy, dryRun: bool): Config {
    Config(confirmAll, Policy.Members(p.confirm), dryRun)
  }

  /** Asked for with confirm-all, and otherwise exactly for the listed argument vectors. */
  method NeedsConfirm(confirmAll: bool, p: Policy.Policy, dryRun: bool, argv: seq<string>) returns (needed: bool)
    ensures needed <==> confirmAll || exists k | 0 <= k < |p.confirm| :: p.confirm[k] == argv
    ensures needed <==> Protocol.NeedsConfirm(ConfigOf(confirmAll, p, dryRun), argv)
  {
    if confirmAll {
      return true;
    }
    needed := Policy.NeedsConfirm(p, argv);
  }
}
