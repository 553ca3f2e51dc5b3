/** The ids of expanded rules. */
module ServiceIDs {

  datatype Target = App(name: string) | Job(name: string)

  predicate IsHex(c: char) {
    '0' <= c <= '9' || 'a' <= c <= 'f'
  }

  /** The form of the ids that the store generates. */
  predicate IsObjectID(s: string) {
    |s| == 24 && forall i :: 0 <= i < |s| ==> IsHex(s[i])
  }

  function ExpandedID(base: string, t: Target): string {
    match t
    case App(name) => base + "-" + name
    case Job(name) => "job-" + base + "-" + name
  }

  /** Base rule and target can be read off an expanded id, although names may
      themselves contain dashes. */
  lemma ExpandedIDIsInjective(base: string, t: Target, base': string, t': Target)
    requires IsObjectID(base) && IsObjectID(base')
    requires ExpandedID(base, t) == ExpandedID(base', t')
    ensures base == base' && t == t'
  {
    var id, id' := ExpandedID(base, t), ExpandedID(base', t');
    if t.App? {
      assert id[0] == base[0];
      assert IsHex(id[0]);
    }
    if t'.App? {
      assert id'[0] == base'[0];
      assert IsHex(id'[0]);
    }
    assert t.Job? ==> id[0] == 'j';
    assert t'.Job? ==> id'[0] == 'j';
    if t.App? {
      assert id[..24] == base && id'[..24] == base';
      assert id[25..] == t.name && id'[25..] == t'.name;
    } else {
      assert id[4..28] == base && id'[4..28] == base';
      assert id[29..] == t.name && id'[29..] == t'.name;
    }
  }

  /** No expanded id is ever generated for another rule. */
  lemma ExpandedIDIsNotGenerated(base: string, t: Target)
    requires IsObjectID(base)
    ensures !IsObjectID(ExpandedID(base, t))
  {
    assert |ExpandedID(base, t)| >= 25;
  }

  /** Without the fixed form of base ids, two rules would share an id. */
  lemma DashesWouldCollide()
    ensures ExpandedID("a", App("b-c")) == ExpandedID("a-b", App("c"))
    ensures !IsObjectID("a")
  {
  }
}
