/**
 * Smriti, the memory store (backend/agents/smriti.py). The `memories` table
 * is a map from task hash to record: the UNIQUE constraint on `task_hash`
 * makes a hash name at most one record. The hash (md5 in the source) is an
 * opaque function fixed at construction.
 */
module Memory {
  import opened Text
  import opened Ranking

  /** A JSON value of the metadata dictionary. */
  datatype Value = Flag(b: bool) | Count(n: int) | Str(s: string)

  /** A metadata dictionary; an empty one is stored as NULL and read back as `{}`. */
  type Metadata = map<string, Value>

  /** One row of `memories`: an empty embedding is stored as NULL. */
  datatype Record = Record(task: string, embedding: seq<real>, solution: string, score: real, metadata: Metadata)

  /** One entry of the `retrieve_similar` result. */
  datatype Similar = Similar(task: string, solution: string, qualityScore: real, similarity: real, metadata: Metadata)

  /** Every record sits under the hash of its own task. */
  predicate Consistent(fingerprint: string -> string, t: map<string, Record>) {
    forall h :: h in t ==> fingerprint(t[h].task) == h
  }

  /**
   * The table after `store` under hash `h`: a new hash is inserted; an
   * existing one is overwritten (keeping its task text) only by a strictly
   * better score.
   */
  function StoreInto(t: map<string, Record>, h: string, task: string, solution: string, score: real,
                     embedding: seq<real>, metadata: Metadata): (r: map<string, Record>)
    ensures r.Keys == t.Keys + {h}
    ensures h !in t ==> r[h] == Record(task, embedding, solution, score, metadata)
    ensures h in t && score > t[h].score ==> r[h] == Record(t[h].task, embedding, solution, score, metadata)
    ensures h in t && score <= t[h].score ==> r == t
    ensures forall g :: g in t && g != h ==> r[g] == t[g]
    ensures forall g :: g in t ==> r[g].task == t[g].task && r[g].score >= t[g].score
    ensures r[h].score >= score
  {
    if h in t then
      if score > t[h].score then t[h := Record(t[h].task, embedding, solution, score, metadata)] else t
    else
      t[h := Record(task, embedding, solution, score, metadata)]
  }

  /** Storing under the task's own hash keeps every record under its task's hash. */
  lemma StoreKeepsConsistent(fingerprint: string -> string, t: map<string, Record>, task: string,
                             solution: string, score: real, embedding: seq<real>, metadata: Metadata)
    requires Consistent(fingerprint, t)
    ensures Consistent(fingerprint, StoreInto(t, fingerprint(task), task, solution, score, embedding, metadata))
  {
  }

  /** Storing twice with the same score leaves the table as one store did. */
  lemma StoreIdempotent(t: map<string, Record>, h: string, task: string, solution: string, score: real,
                        embedding: seq<real>, metadata: Metadata)
    ensures var once := StoreInto(t, h, task, solution, score, embedding, metadata);
            StoreInto(once, h, task, solution, score, embedding, metadata) == once
  {
  }

  /** The hashes whose record scores at least `minScore` (`WHERE quality_score >= ?`). */
  function Eligible(t: map<string, Record>, minScore: real): (pool: set<string>)
    ensures pool <= t.Keys
    ensures forall h :: h in t ==> (h in pool <==> t[h].score >= minScore)
  {
    set h | h in t && t[h].score >= minScore
  }

  /** SQLite's `LIMIT n`: a negative limit means no limit. */
  function LimitCount(n: int, available: nat): nat {
    if n < 0 || n >= available then available else n
  }

  /**
   * `ORDER BY quality_score DESC LIMIT n` over `pool`: distinct hashes of
   * the pool in non-increasing score order, as many as the limit allows, and
   * no record left out scores above one selected. The order of equal scores
   * is not fixed.
   */
  predicate IsTop(t: map<string, Record>, pool: set<string>, n: int, picked: seq<string>)
    requires pool <= t.Keys
  {
    (forall i :: 0 <= i < |picked| ==> picked[i] in pool)
    && (forall i, j :: 0 <= i < j < |picked| ==> picked[i] != picked[j])
    && (forall i, j :: 0 <= i < j < |picked| ==> t[picked[i]].score >= t[picked[j]].score)
    && |picked| == LimitCount(n, |pool|)
    && (forall g, i :: g in pool && g !in picked && 0 <= i < |picked| ==> t[g].score <= t[picked[i]].score)
  }

  /** A non-empty pool has a best-scoring member. */
  lemma {:induction false} BestExists(t: map<string, Record>, pool: set<string>)
    requires pool != {} && pool <= t.Keys
    ensures exists h :: h in pool && forall g :: g in pool ==> t[g].score <= t[h].score
    decreases |pool|
  {
    var x :| x in pool;
    var others := pool - {x};
    if others == {} {
      forall g | g in pool ensures t[g].score <= t[x].score {
        assert g !in others;
      }
    } else {
      BestExists(t, others);
      var y :| y in others && forall g :: g in others ==> t[g].score <= t[y].score;
      var best := if t[x].score <= t[y].score then y else x;
      forall g | g in pool ensures t[g].score <= t[best].score {
        if g != x {
          assert g in others;
        }
      }
    }
  }

  /**
   * The scan's state: `picked` and `rest` split the pool, the picked rows
   * are distinct and in non-increasing score order, and none left scores
   * above one picked.
   */
  ghost predicate Scan(t: map<string, Record>, pool: set<string>, rest: set<string>, picked: seq<string>)
    requires pool <= t.Keys
  {
    rest <= pool
    && (forall g :: g in pool <==> g in rest || g in picked)
    && (forall g :: g in rest ==> g !in picked)
    && |rest| + |picked| == |pool|
    && (forall i, j :: 0 <= i < j < |picked| ==> picked[i] != picked[j])
    && (forall i, j :: 0 <= i < j < |picked| ==> t[picked[i]].score >= t[picked[j]].score)
    && (forall g, i :: g in rest && 0 <= i < |picked| ==> t[g].score <= t[picked[i]].score)
  }

  /** Moving a best remaining row to the end of the picked ones keeps the scan's state. */
  lemma ScanStep(t: map<string, Record>, pool: set<string>, rest: set<string>, picked: seq<string>, h: string)
    requires pool <= t.Keys && Scan(t, pool, rest, picked)
    requires h in rest && forall g :: g in rest ==> t[g].score <= t[h].score
    ensures Scan(t, pool, rest - {h}, picked + [h])
  {
    var p := picked + [h];
    assert forall i :: 0 <= i < |picked| ==> p[i] == picked[i];
    assert p[|picked|] == h;
  }

  /** A scan that ran out of rows or reached the limit has picked the top rows. */
  lemma ScanDone(t: map<string, Record>, pool: set<string>, n: int, rest: set<string>, picked: seq<string>)
    requires pool <= t.Keys && Scan(t, pool, rest, picked)
    requires n >= 0 ==> |picked| <= n
    requires rest == {} || (n >= 0 && |picked| == n)
    ensures IsTop(t, pool, n, picked)
  {
    forall i | 0 <= i < |picked| ensures picked[i] in pool {
      assert picked[i] in picked;
    }
  }

  /** The query engine's ordered, limited scan, one best remaining row at a time. */
  method SelectTop(t: map<string, Record>, pool: set<string>, n: int) returns (picked: seq<string>)
    requires pool <= t.Keys
    ensures IsTop(t, pool, n, picked)
  {
    picked := [];
    var rest := pool;
    while rest != {} && (n < 0 || |picked| < n)
      invariant Scan(t, pool, rest, picked)
      invariant n >= 0 ==> |picked| <= n
      decreases |rest|
    {
      BestExists(t, rest);
      var h :| h in rest && forall g :: g in rest ==> t[g].score <= t[h].score;
      ScanStep(t, pool, rest, picked, h);
      picked := picked + [h];
      rest := rest - {h};
    }
    ScanDone(t, pool, n, rest, picked);
  }

  /** The dictionary `retrieve_similar` builds for one candidate row. */
  function Entry(query: string, rec: Record): Similar {
    Similar(rec.task, rec.solution, rec.score, WordSimilarity(query, rec.task), rec.metadata)
  }

  /** Only candidates more than 0.2 similar are kept. */
  const Threshold: real := 0.2

  /** The candidates, in scan order, that pass the similarity threshold. */
  function Matches(query: string, t: map<string, Record>, hs: seq<string>): (r: seq<Similar>)
    requires forall i :: 0 <= i < |hs| ==> hs[i] in t
    ensures |r| <= |hs|
    ensures forall i :: 0 <= i < |r| ==> r[i].similarity > Threshold
    ensures forall k :: 0 <= k < |hs| && Entry(query, t[hs[k]]).similarity > Threshold ==> Entry(query, t[hs[k]]) in r
    ensures forall x :: x in r ==> exists k :: 0 <= k < |hs| && x == Entry(query, t[hs[k]])
  {
    if hs == [] then []
    else
      var init := Matches(query, t, hs[..|hs| - 1]);
      var e := Entry(query, t[hs[|hs| - 1]]);
      var r := init + (if e.similarity > Threshold then [e] else []);
      assert forall k :: 0 <= k < |hs| - 1 ==> hs[..|hs| - 1][k] == hs[k];
      r
  }

  function SimKey(s: Similar): Key { Key(s.similarity, s.qualityScore) }

  /** The result of `retrieve_similar` given the scanned candidates. */
  function Ranked(query: string, t: map<string, Record>, hs: seq<string>, limit: int): seq<Similar>
    requires forall i :: 0 <= i < |hs| ==> hs[i] in t
  {
    Head(SortDesc(Matches(query, t, hs), SimKey), limit)
  }

  /**
   * The ranked result is ordered by (similarity, score) descending, holds
   * only sufficiently similar candidates, and at most `limit` of them; with
   * a limit that keeps everything, it holds every match.
   */
  lemma RankedShape(query: string, t: map<string, Record>, hs: seq<string>, limit: int)
    requires forall i :: 0 <= i < |hs| ==> hs[i] in t
    ensures var r := Ranked(query, t, hs, limit);
            NonIncreasing(r, SimKey)
            && (forall i :: 0 <= i < |r| ==> r[i].similarity > Threshold && r[i] in Matches(query, t, hs))
            && (limit >= 0 ==> |r| <= limit)
            && (limit >= |Matches(query, t, hs)| ==> multiset(r) == multiset(Matches(query, t, hs)))
  {
    var m := Matches(query, t, hs);
    var s := SortDesc(m, SimKey);
    var r := Ranked(query, t, hs, limit);
    SortDescSorted(m, SimKey);
    SortDescPermutes(m, SimKey);
    forall i | 0 <= i < |r| ensures r[i].similarity > Threshold && r[i] in m {
      assert r[i] == s[i];
      assert s[i] in multiset(s);
    }
    if limit >= |m| {
      assert r == s;
    }
  }

  /** A stored task that shares no word with the query is never returned. */
  lemma UnrelatedNeverReturned(query: string, t: map<string, Record>, hs: seq<string>, limit: int, h: string)
    requires forall i :: 0 <= i < |hs| ==> hs[i] in t
    requires h in t && WordSet(query) * WordSet(t[h].task) == {}
    ensures Entry(query, t[h]) !in Ranked(query, t, hs, limit)
  {
    RankedShape(query, t, hs, limit);
  }

  /** The solutions of the selected rows, in order. */
  function Solutions(t: map<string, Record>, hs: seq<string>): (r: seq<string>)
    requires forall i :: 0 <= i < |hs| ==> hs[i] in t
    ensures |r| == |hs| && forall i :: 0 <= i < |r| ==> r[i] == t[hs[i]].solution
  {
    seq(|hs|, i requires 0 <= i < |hs| => t[hs[i]].solution)
  }

  class Smriti {
    /** `_hash_task`. */
    const fingerprint: string -> string
    /** The `memories` table, keyed by task hash. */
    var table: map<string, Record>

    predicate Valid()
      reads this
    {
      Consistent(fingerprint, table)
    }

    /** Opens the store over an existing table (empty for a new database). */
    constructor(fingerprint: string -> string, existing: map<string, Record>)
      requires Consistent(fingerprint, existing)
      ensures Valid()
      ensures this.fingerprint == fingerprint && table == existing
    {
      this.fingerprint := fingerprint;
      table := existing;
    }

    /** `store`: insert a new task, or replace its row only with a strictly better score. */
    method Store(task: string, solution: string, score: real, embedding: seq<real>, metadata: Metadata)
      requires Valid()
      modifies this
      ensures Valid()
      ensures table == StoreInto(old(table), fingerprint(task), task, solution, score, embedding, metadata)
    {
      var h := fingerprint(task);
      if h in table {
        var existing := table[h];
        if score > existing.score {
          table := table[h := Record(existing.task, embedding, solution, score, metadata)];
        }
      } else {
        table := table[h := Record(task, embedding, solution, score, metadata)];
      }
      StoreKeepsConsistent(fingerprint, old(table), task, solution, score, embedding, metadata);
    }

    /**
     * `retrieve_similar`: the best `2 * limit` rows scoring at least
     * `minScore`, kept when more than 0.2 similar to the task, ranked by
     * (similarity, score) and cut to `limit`.
     */
    method RetrieveSimilar(task: string, limit: int, minScore: real) returns (r: seq<Similar>)
      ensures exists hs :: IsTop(table, Eligible(table, minScore), limit * 2, hs)
                           && r == Ranked(task, table, hs, limit)
    {
      var pool := Eligible(table, minScore);
      var hs := SelectTop(table, pool, limit * 2);
      var similar: seq<Similar> := [];
      for k := 0 to |hs|
        invariant similar == Matches(task, table, hs[..k])
      {
        assert hs[..k + 1][..k] == hs[..k];
        var entry := Entry(task, table[hs[k]]);
        if entry.similarity > Threshold {
          similar := similar + [entry];
        }
      }
      assert hs[..|hs|] == hs;
      similar := SortDesc(similar, SimKey);
      r := Head(similar, limit);
    }

    /** `get_best_examples`: the solutions of the best `limit` rows, best first. */
    method GetBestExamples(limit: int) returns (r: seq<string>)
      ensures exists hs :: IsTop(table, table.Keys, limit, hs) && r == Solutions(table, hs)
      ensures |r| == LimitCount(limit, |table|)
    {
      var hs := SelectTop(table, table.Keys, limit);
      r := [];
      for k := 0 to |hs|
        invariant r == Solutions(table, hs[..k])
      {
        r := r + [table[hs[k]].solution];
      }
      assert hs[..|hs|] == hs;
    }
  }
}
