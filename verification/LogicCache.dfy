/** The per-round cache of the objects that know how to reach a rule's source. */
module LogicCaching {
  import opened Basics
  import opened RuleTypes

  datatype Origin = FromApp(app: TsuruAppRule) | FromJob(job: TsuruJobRule)

  class RuleLogic {
    const origin: Origin

    constructor (origin: Origin)
      ensures this.origin == origin
    {
      this.origin := origin;
    }
  }

  /** What a source is reached through, if it is an application or a job. */
  function OriginOf(r: RuleType): Option<Origin> {
    if r.tsuruApp.Some? then Some(FromApp(r.tsuruApp.value))
    else if r.tsuruJob.Some? then Some(FromJob(r.tsuruJob.value))
    else None
  }

  predicate Reaches(logic: RuleLogic?, r: RuleType) {
    (logic == null <==> OriginOf(r) == None) && (logic != null ==> OriginOf(r) == Some(logic.origin))
  }

  ghost predicate Injective(key: RuleType -> string) {
    forall r, s :: key(r) == key(s) ==> r == s
  }

  class LogicCache {
    /** The key the cache files a source under. */
    const cacheKey: RuleType -> string
    var cache: map<string, RuleLogic?>
    /** The sources looked up so far, by key. */
    ghost var filed: map<string, RuleType>

    /** No key stands for two sources, and every filed object reaches its source. */
    ghost predicate Valid()
      reads this
    {
      && Injective(cacheKey)
      && cache.Keys == filed.Keys
      && forall k :: k in filed ==> cacheKey(filed[k]) == k && Reaches(cache[k], filed[k])
    }

    /** The object is what the cache has for the source. */
    predicate Files(r: RuleType, logic: RuleLogic?)
      reads this
    {
      cacheKey(r) in cache && cache[cacheKey(r)] == logic
    }

    constructor (cacheKey: RuleType -> string)
      requires Injective(cacheKey)
      ensures Valid() && cache == map[] && this.cacheKey == cacheKey
    {
      this.cacheKey := cacheKey;
      cache, filed := map[], map[];
    }

    method LogicFromRuleType(r: RuleType) returns (logic: RuleLogic?)
      ensures Reaches(logic, r)
      // The same in full.
      ensures logic != null <==> r.tsuruApp.Some? || r.tsuruJob.Some?
      ensures r.tsuruApp.Some? ==> logic != null && logic.origin == FromApp(r.tsuruApp.value)
      ensures r.tsuruApp.None? && r.tsuruJob.Some? ==> logic != null && logic.origin == FromJob(r.tsuruJob.value)
    {
      if r.tsuruApp.Some? {
        logic := new RuleLogic(FromApp(r.tsuruApp.value));
      } else if r.tsuruJob.Some? {
        logic := new RuleLogic(FromJob(r.tsuruJob.value));
      } else {
        logic := null;
      }
    }

    /** The answer reaches the source of this very rule, is the same object for
        the same source ever after, and no earlier answer is replaced. */
    method LogicFromRule(r: Rule) returns (src: RuleLogic?)
      requires Valid()
      modifies this
      ensures Valid()
      ensures Reaches(src, r.source)
      ensures Files(r.source, src)
      ensures forall k :: k in old(cache) ==> k in cache && cache[k] == old(cache)[k]
      ensures cache.Keys == old(cache).Keys + {cacheKey(r.source)}
      // The same in full.
      ensures src != null <==> r.source.tsuruApp.Some? || r.source.tsuruJob.Some?
      ensures r.source.tsuruApp.Some? ==> src != null && src.origin == FromApp(r.source.tsuruApp.value)
      ensures r.source.tsuruApp.None? && r.source.tsuruJob.Some? ==> src != null && src.origin == FromJob(r.source.tsuruJob.value)
      ensures cacheKey(r.source) in cache && cache[cacheKey(r.source)] == src
      ensures cacheKey(r.source) in old(cache) ==> src == old(cache)[cacheKey(r.source)]
    {
      var srcKey := cacheKey(r.source);
      if srcKey in cache {
        src := cache[srcKey];
      } else {
        src := LogicFromRuleType(r.source);
        cache := cache[srcKey := src];
        filed := filed[srcKey := r.source];
      }
    }

    /** One round over the rules: each gets an object that reaches its source,
        and two rules of one source get the same object. */
    method LogicsOfRound(rules: seq<Rule>) returns (logics: seq<RuleLogic?>)
      requires Valid()
      modifies this
      ensures Valid() && |logics| == |rules|
      ensures forall i :: 0 <= i < |rules| ==> Reaches(logics[i], rules[i].source)
      ensures forall i, j :: 0 <= i < |rules| && 0 <= j < |rules| && rules[i].source == rules[j].source ==> logics[i] == logics[j]
    {
      logics := [];
      var k := 0;
      while k < |rules|
        invariant 0 <= k <= |rules| && Valid() && |logics| == k
        invariant forall i :: 0 <= i < k ==> Reaches(logics[i], rules[i].source)
        invariant forall i :: 0 <= i < k ==> Files(rules[i].source, logics[i])
      {
        var logic := LogicFromRule(rules[k]);
        logics := logics + [logic];
        k := k + 1;
      }
    }
  }
}
