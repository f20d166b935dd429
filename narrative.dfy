/**
 * The per-domain step of the profile narrative: the placeholder for a domain
 * score without performance levels, the lookup of the domain's narrative and
 * the performance-level text by id.
 */
module Narrative {
  import opened Wrappers

  /** A performance level of the subject/grade lookup, with its narrative text. */
  datatype LevelText = LevelText(id: int, text: string)

  /** A domain of the subject/grade lookup. */
  datatype LookupDomain = LookupDomain(id: int, name: string, text: string)

  /** A student's domain score: the domain id and the ids of its performance levels (null read as empty). */
  datatype DomainScore = DomainScore(id: int, performanceLevelIds: seq<int>)

  datatype DomainModel = DomainModel(id: int, name: string, performanceText: string, text: string)

  /**
   * One entry of a narrative: the error placeholder, or the domain model found in
   * the lookup (None for the default-constructed model when no domain matches)
   * with the score's first performance-level id.
   */
  datatype DomainEntry = BadData(errorMessage: string) | Entry(model: Option<DomainModel>, firstLevelId: int)

  const BadDataMessage := "Error.  Bad data."

  /** Reference definition: the text of the first level with the id, or "" when none has it. */
  function LevelTextOf(levels: seq<LevelText>, performanceId: int): (text: string)
    ensures (forall i :: 0 <= i < |levels| ==> levels[i].id != performanceId) ==> text == ""
    ensures text != "" ==> exists k :: 0 <= k < |levels| && levels[k].id == performanceId && levels[k].text == text
  {
    if levels == [] then ""
    else if levels[0].id == performanceId then levels[0].text
    else
      var text := LevelTextOf(levels[1..], performanceId);
      assert text != "" ==> exists k :: 0 <= k < |levels| && levels[k].id == performanceId && levels[k].text == text by {
        if text != "" {
          var k :| 0 <= k < |levels[1..]| && levels[1..][k].id == performanceId && levels[1..][k].text == text;
          assert levels[k + 1] == levels[1..][k];
        }
      }
      text
  }

  /** The text is the first matching level's. */
  lemma {:induction false} LevelTextIsFirstMatch(levels: seq<LevelText>, performanceId: int, k: nat)
    requires k < |levels| && levels[k].id == performanceId
    requires forall i :: 0 <= i < k ==> levels[i].id != performanceId
    ensures LevelTextOf(levels, performanceId) == levels[k].text
  {
    if k > 0 {
      assert levels[1..][k - 1] == levels[k];
      forall i | 0 <= i < k - 1 ensures levels[1..][i].id != performanceId {
        assert levels[1..][i] == levels[i + 1];
      }
      LevelTextIsFirstMatch(levels[1..], performanceId, k - 1);
    }
  }

  /** PerformanceLevelText: the loop that returns the first matching level's text. */
  method PerformanceLevelText(levels: seq<LevelText>, performanceId: int) returns (text: string)
    ensures text == LevelTextOf(levels, performanceId)
  {
    var k := 0;
    while k < |levels|
      invariant 0 <= k <= |levels|
      invariant forall i :: 0 <= i < k ==> levels[i].id != performanceId
    {
      if levels[k].id == performanceId {
        LevelTextIsFirstMatch(levels, performanceId, k);
        return levels[k].text;
      }
      k := k + 1;
    }
    return "";
  }

  /**
   * The entry for one domain score: the placeholder when it has no performance
   * levels; otherwise the first lookup domain with the score's id, its
   * performance text taken from the score's first level.
   */
  method DomainEntryFor(domains: seq<LookupDomain>, levels: seq<LevelText>, score: DomainScore) returns (entry: DomainEntry)
    ensures score.performanceLevelIds == [] <==> entry == BadData(BadDataMessage)
    ensures entry.Entry? ==>
              entry.firstLevelId == score.performanceLevelIds[0]
              && (entry.model.None? <==> forall i :: 0 <= i < |domains| ==> domains[i].id != score.id)
              && (entry.model.Some? ==>
                    exists k :: 0 <= k < |domains| && domains[k].id == score.id
                      && (forall i :: 0 <= i < k ==> domains[i].id != score.id)
                      && entry.model.value == DomainModel(domains[k].id, domains[k].name,
                                                          LevelTextOf(levels, score.performanceLevelIds[0]), domains[k].text))
  {
    if score.performanceLevelIds == [] {
      return BadData(BadDataMessage);
    }
    var domainModel: Option<DomainModel> := None;
    var k := 0;
    while k < |domains|
      invariant 0 <= k <= |domains|
      invariant domainModel.None?
      invariant forall i :: 0 <= i < k ==> domains[i].id != score.id
    {
      if domains[k].id == score.id {
        var performanceText := PerformanceLevelText(levels, score.performanceLevelIds[0]);
        domainModel := Some(DomainModel(domains[k].id, domains[k].name, performanceText, domains[k].text));
        break;
      }
      k := k + 1;
    }
    entry := Entry(domainModel, score.performanceLevelIds[0]);
  }
}
