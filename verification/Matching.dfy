/** The scan over the stored hotels of a country and the decision to reuse one of them. */
module Matching {
  import opened Sql
  import opened Mapping

  datatype MappingResult = MappingResult(hotel: nat, confidence: int, ambiguous: bool, matched: bool)

  type Hotels = map<nat, Hotel>

  type Distance = (real, real, real, real) -> real

  /** The scores of the candidate rows. */
  function Scores(hotels: Hotels, text: Text, km: Distance, record: Record): map<nat, int> {
    map id | id in hotels && hotels[id].country == text.country(record.country)
      :: ScoreOf(FeaturesOf(text, km, record, hotels[id]))
  }

  /** The points of a candidate in hundredths: for its name, its city and its distance. */
  function PointsFor(text: Text, km: Distance, record: Record, name: string, city: string, candidate: Hotel): int {
    var candidateName := text.normal(candidate.canonicalName);
    var left, right := Tokens(name, ""), Tokens(candidateName, "");
    var named :=
      if name == "" then 0
      else if candidateName == name then 65
      else if name <= candidateName || candidateName <= name then 50
      else if left != {} && right != {} && 100 * |left * right| >= 60 * |left| && 100 * |left * right| >= 60 * |right| then 40
      else 0;
    var placed := if city != "" && text.normal(candidate.city) == city then 20 else 0;
    var near :=
      if record.latitude.None? || record.longitude.None? || candidate.latitude.None? || candidate.longitude.None? then 0
      else
        var d := km(record.latitude.value, record.longitude.value, candidate.latitude.value, candidate.longitude.value);
        if d <= 0.30 then 15 else if d <= 1.00 then 10 else if d <= 20.0 then 0 else -20;
    var points := named + placed + near;
    if points < 0 then 0 else if points > 100 then 100 else points
  }

  lemma PointsOfFeatures(text: Text, km: Distance, record: Record, candidate: Hotel)
    ensures var points := Hundredths(FeaturesOf(text, km, record, candidate));
            PointsFor(text, km, record, text.normal(record.rawName), text.normal(record.city), candidate)
            == if points < 0 then 0 else if points > 100 then 100 else points
  {
  }

  predicate Proper(scores: map<nat, int>) {
    forall id :: id in scores ==> 0 <= scores[id] <= HUNDRED && (scores[id] >= MEDIUM ==> scores[id] % 16 == 0)
  }

  lemma ScoresAreProper(hotels: Hotels, text: Text, km: Distance, record: Record)
    ensures Proper(Scores(hotels, text, km, record))
  {
    var scores := Scores(hotels, text, km, record);
    forall id | id in scores && scores[id] >= MEDIUM ensures scores[id] % 16 == 0 {
      MediumScoresAreCoarse(FeaturesOf(text, km, record, hotels[id]));
    }
  }

  // ---------- the decision, without a scan ----------

  /** High confidence, and every other candidate is below medium confidence or more than
      the margin behind. */
  predicate Qualifies(scores: map<nat, int>, id: nat) {
    && id in scores && scores[id] >= HIGH
    && forall other :: other in scores && other != id ==> scores[other] < MEDIUM || scores[id] - scores[other] > MARGIN
  }

  function ScoreIn(hotels: Hotels, text: Text, km: Distance, record: Record, id: nat): int
    requires id in hotels
  {
    ScoreOf(FeaturesOf(text, km, record, hotels[id]))
  }

  predicate SameCountry(hotels: Hotels, text: Text, record: Record, id: nat) {
    id in hotels && hotels[id].country == text.country(record.country)
  }

  /** A hotel of the record's country that scores 0.80 or more, while every other one of the
      country is below 0.55 or more than 0.05 behind. */
  ghost predicate StandsOut(hotels: Hotels, text: Text, km: Distance, record: Record, id: nat) {
    && SameCountry(hotels, text, record, id)
    && ScoreIn(hotels, text, km, record, id) >= 115292150460684704
    && forall other :: SameCountry(hotels, text, record, other) && other != id ==>
         var score, second := ScoreIn(hotels, text, km, record, id), ScoreIn(hotels, text, km, record, other);
         second < 79263353441720736 || score - second > 7205759403792794
  }

  lemma StandsOutIsQualified(hotels: Hotels, text: Text, km: Distance, record: Record, id: nat)
    ensures StandsOut(hotels, text, km, record, id) <==> Qualifies(Scores(hotels, text, km, record), id)
  {
    var scores := Scores(hotels, text, km, record);
    assert forall i :: SameCountry(hotels, text, record, i) <==> i in scores;
    assert forall i :: i in scores ==> scores[i] == ScoreIn(hotels, text, km, record, i);
  }

  predicate Largest(scores: map<nat, int>, score: int) {
    && (forall id :: id in scores ==> scores[id] <= score)
    && (score == 0 || exists id :: id in scores && scores[id] == score)
  }

  /** What the decision has to be; `newId` is the key of a newly created hotel. */
  ghost predicate Decided(scores: map<nat, int>, newId: nat, r: MappingResult) {
    && Largest(scores, r.confidence)
    && (r.matched <==> exists id :: Qualifies(scores, id))
    && (if r.matched then Qualifies(scores, r.hotel) else r.hotel == newId)
    && (r.ambiguous <==> !r.matched && exists id :: id in scores && scores[id] >= MEDIUM)
  }

  /** A match is the one largest score, by more than the margin unless the others are
      poor, and at most one hotel qualifies. */
  lemma MatchIsUniqueMaximum(scores: map<nat, int>, id: nat, other: nat)
    requires Qualifies(scores, id) && other in scores && other != id
    ensures scores[other] < scores[id] && !Qualifies(scores, other)
  {
  }

  /** The scores leave one decision: two scans of the same rows in different orders agree on
      the hotel, the confidence and the ambiguity. */
  lemma DecisionIsUnique(scores: map<nat, int>, newId: nat, r: MappingResult, r': MappingResult)
    requires Proper(scores) && Decided(scores, newId, r) && Decided(scores, newId, r')
    ensures r == r'
  {
    if r.matched && r.hotel != r'.hotel {
      MatchIsUniqueMaximum(scores, r.hotel, r'.hotel);
    }
  }

  // ---------- the two largest scores ----------

  datatype Scan = Scan(best: Option<nat>, bestScore: int, second: int)

  ghost predicate TopTwo(scores: map<nat, int>, seen: set<nat>, s: Scan)
    requires seen <= scores.Keys
  {
    && 0 <= s.second <= s.bestScore
    && (s.best.None? ==> s.bestScore == 0)
    && (s.best.Some? ==> s.best.value in seen && scores[s.best.value] == s.bestScore > 0)
    && (forall id :: id in seen ==> scores[id] <= if s.best == Some(id) then s.bestScore else s.second)
    && (s.second > 0 ==> exists id :: id in seen && s.best.Some? && id != s.best.value && scores[id] == s.second)
  }

  function Scanned(s: Scan, id: nat, score: int): Scan {
    if score > s.bestScore then Scan(Some(id), score, s.bestScore)
    else if score > s.second then s.(second := score)
    else s
  }

  lemma ScanStep(scores: map<nat, int>, seen: set<nat>, s: Scan, id: nat)
    requires Proper(scores) && seen <= scores.Keys && TopTwo(scores, seen, s) && id in scores && id !in seen
    ensures TopTwo(scores, seen + {id}, Scanned(s, id, scores[id]))
  {
    var s' := Scanned(s, id, scores[id]);
    if scores[id] > s.bestScore {
      if s'.second > 0 {
        assert s.best.value in seen + {id} && scores[s.best.value] == s'.second;
      }
    } else if scores[id] > s.second {
      assert id in seen + {id} && scores[id] == s'.second;
    } else if s.second > 0 {
      var w :| w in seen && w != s.best.value && scores[w] == s.second;
      assert w in seen + {id};
    }
  }

  predicate RunnerUp(s: Scan) {
    s.second >= MEDIUM && Rounded(s.bestScore - s.second) <= MARGIN
  }

  /** The two largest scores decide like all the scores. */
  lemma ScanDecides(scores: map<nat, int>, s: Scan)
    requires Proper(scores) && TopTwo(scores, scores.Keys, s)
    ensures Largest(scores, s.bestScore)
    ensures s.best.Some? && s.bestScore >= HIGH && !RunnerUp(s) ==> Qualifies(scores, s.best.value)
    ensures !(s.best.Some? && s.bestScore >= HIGH && !RunnerUp(s)) ==> forall id :: !Qualifies(scores, id)
    ensures s.best.Some? && (s.bestScore >= MEDIUM || RunnerUp(s)) <==> exists id :: id in scores && scores[id] >= MEDIUM
  {
    if s.best.Some? {
      assert s.best.value in scores;
    }
    if s.second >= MEDIUM {
      var w :| w in scores && w != s.best.value && scores[w] == s.second;
      ExactDifference(s.bestScore, s.second);
    }
    forall id: nat | Qualifies(scores, id) ensures s.best == Some(id) && s.bestScore >= HIGH && !RunnerUp(s) {
    }
  }

  class Matcher {
    const text: Text
    const km: Distance
    var hotels: Hotels

    constructor (text: Text, km: Distance)
      ensures this.text == text && this.km == km && hotels == map[]
    {
      this.text, this.km, this.hotels := text, km, map[];
    }

    method ScoreCandidate(record: Record, name: string, city: string, candidate: Hotel) returns (score: int)
      requires name == text.normal(record.rawName) && city == text.normal(record.city)
      ensures score == ScoreOf(FeaturesOf(text, km, record, candidate))
      ensures IsAbout(score, PointsFor(text, km, record, name, city, candidate))
    {
      PointsOfFeatures(text, km, record, candidate);
      ScoreIsAboutPoints(FeaturesOf(text, km, record, candidate));
      var candidateName, candidateCity := text.normal(candidate.canonicalName), text.normal(candidate.city);
      ghost var f := FeaturesOf(text, km, record, candidate);
      FirstPoints();
      score := 0;
      if name != "" && candidateName == name {
        score := Plus(score, SIXTY_FIVE);
      } else if name != "" && (name <= candidateName || candidateName <= name) {
        score := Plus(score, FIFTY);
      } else if name != "" && SharesTokens(name, candidateName) {
        score := Plus(score, FORTY);
      }
      assert score == NamePoints(f.name);
      if city != "" && candidateCity == city {
        score := Plus(score, TWENTY);
      }
      assert score == PlacePoints(f);
      if record.latitude.Some? && record.longitude.Some? && candidate.latitude.Some? && candidate.longitude.Some? {
        var d := km(record.latitude.value, record.longitude.value, candidate.latitude.value, candidate.longitude.value);
        if d <= 0.30 {
          score := Plus(score, FIFTEEN);
        } else if d <= 1.00 {
          score := Plus(score, TEN);
        } else if d > 20.0 {
          score := Plus(score, -TWENTY);
        }
      }
      score := Clamped(score);
    }

    method Compare(best: Option<nat>, bestScore: int, second: int, id: nat, score: int)
      returns (best': Option<nat>, bestScore': int, second': int)
      ensures Scan(best', bestScore', second') == Scanned(Scan(best, bestScore, second), id, score)
    {
      best', bestScore', second' := best, bestScore, second;
      if score > bestScore {
        second' := bestScore;
        bestScore' := score;
        best' := Some(id);
      } else if score > second {
        second' := score;
      }
    }

    /** The rows come in any order. */
    method ScanCandidates(record: Record) returns (best: Option<nat>, bestScore: int, second: int)
      ensures var scores := Scores(hotels, text, km, record); TopTwo(scores, scores.Keys, Scan(best, bestScore, second))
    {
      var name, city := text.normal(record.rawName), text.normal(record.city);
      ghost var scores := Scores(hotels, text, km, record);
      ScoresAreProper(hotels, text, km, record);
      var candidates := set id | id in hotels && hotels[id].country == text.country(record.country);
      best, bestScore, second := None, 0, 0;
      ghost var seen := {};
      while candidates != {}
        invariant seen + candidates == scores.Keys && seen !! candidates
        invariant TopTwo(scores, seen, Scan(best, bestScore, second))
        decreases candidates
      {
        var id :| id in candidates;
        var score := ScoreCandidate(record, name, city, hotels[id]);
        assert score == scores[id];
        ghost var before := Scan(best, bestScore, second);
        ScanStep(scores, seen, before, id);
        best, bestScore, second := Compare(best, bestScore, second, id, score);
        candidates := candidates - {id};
        seen := seen + {id};
      }
      assert seen == scores.Keys;
    }

    /** The scan, the decision on its two largest scores, and the new hotel. */
    method MatchOrCreate(record: Record, newId: nat) returns (r: MappingResult)
      requires newId !in hotels
      modifies this
      ensures Decided(Scores(old(hotels), text, km, record), newId, r)
      ensures r.matched ==> hotels == old(hotels)
      ensures !r.matched ==>
                hotels == old(hotels)[newId := Hotel(text.strip(record.rawName), text.normal(record.rawName),
                                        text.strip(record.city), text.normal(record.city),
                                        text.country(record.country), record.latitude, record.longitude)]
    {
      var best, bestScore, second := ScanCandidates(record);
      ScoresAreProper(hotels, text, km, record);
      ScanDecides(Scores(hotels, text, km, record), Scan(best, bestScore, second));
      var runnerUp := second >= MEDIUM && Rounded(bestScore - second) <= MARGIN;
      if best.Some? && bestScore >= HIGH && !runnerUp {
        return MappingResult(best.value, bestScore, false, true);
      }
      hotels := hotels[newId := Hotel(text.strip(record.rawName), text.normal(record.rawName),
                           text.strip(record.city), text.normal(record.city),
                           text.country(record.country), record.latitude, record.longitude)];
      r := MappingResult(newId, bestScore, best.Some? && (bestScore >= MEDIUM || runnerUp), false);
    }

    method MapOrCreate(record: Record, newId: nat) returns (r: MappingResult)
      requires newId !in hotels
      modifies this
      ensures Decided(Scores(old(hotels), text, km, record), newId, r)
      ensures r.matched <==> exists id :: id in old(hotels) && StandsOut(old(hotels), text, km, record, id)
      ensures r.matched ==> StandsOut(old(hotels), text, km, record, r.hotel)
      ensures r.ambiguous <==>
        !r.matched && exists id :: SameCountry(old(hotels), text, record, id) && ScoreIn(old(hotels), text, km, record, id) >= 79263353441720736
      ensures forall id :: SameCountry(old(hotels), text, record, id) ==> ScoreIn(old(hotels), text, km, record, id) <= r.confidence
      ensures r.matched ==> hotels == old(hotels)
      ensures !r.matched ==>
                hotels == old(hotels)[newId := Hotel(text.strip(record.rawName), text.normal(record.rawName),
                                        text.strip(record.city), text.normal(record.city),
                                        text.country(record.country), record.latitude, record.longitude)]
    {
      ghost var scores := Scores(hotels, text, km, record);
      forall id ensures StandsOut(hotels, text, km, record, id) <==> Qualifies(scores, id) {
        StandsOutIsQualified(hotels, text, km, record, id);
      }
      assert forall id :: SameCountry(hotels, text, record, id) ==> id in scores && scores[id] == ScoreIn(hotels, text, km, record, id);
      assert forall id :: id in scores ==> SameCountry(hotels, text, record, id);
      r := MatchOrCreate(record, newId);
    }
  }
}
