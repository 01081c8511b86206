/**
 * Character-window chunking of knowledge-base documents
 * (data/chunking.py): the validated configuration and the sliding-window
 * chunker used when documents are indexed.
 */
module Chunking {
  import opened Common

  /** A chunk of a document and the half-open character range it was cut from. */
  datatype Chunk = Chunk(text: string, start: nat, end: nat)

  datatype ChunkingConfig = ChunkingConfig(chunkSize: int, overlapSize: int)

  /** Why constructing a `ChunkingConfig` raises `ValueError`. */
  datatype ConfigError = OverlapNotBelowChunkSize | ChunkSizeBelowMinimum

  const MinChunkSize: int := 100

  /** What `__post_init__` lets through: the only configurations that can exist. */
  predicate ValidConfig(cfg: ChunkingConfig)
  {
    cfg.overlapSize < cfg.chunkSize && cfg.chunkSize >= MinChunkSize
  }

  /** `ChunkingConfig()`: 800-character chunks overlapping by 100. */
  const DefaultChunking: ChunkingConfig := ChunkingConfig(800, 100)

  /** The `step` property: distance between the starts of consecutive windows. */
  function Step(cfg: ChunkingConfig): int
  {
    cfg.chunkSize - cfg.overlapSize
  }

  /**
   * Constructing a configuration: the overlap check comes first, then the
   * minimum chunk size; a configuration that survives has a positive step.
   */
  function MakeConfig(chunkSize: int, overlapSize: int): (r: Result<ChunkingConfig, ConfigError>)
    ensures r.Err? <==> overlapSize >= chunkSize || chunkSize < MinChunkSize
    ensures r == Err(OverlapNotBelowChunkSize) <==> overlapSize >= chunkSize
    ensures r.Ok? ==> r.value == ChunkingConfig(chunkSize, overlapSize)
    ensures r.Ok? ==> ValidConfig(r.value) && Step(r.value) >= 1 && Step(r.value) <= chunkSize - overlapSize
  {
    if overlapSize >= chunkSize then Err(OverlapNotBelowChunkSize)
    else if chunkSize < MinChunkSize then Err(ChunkSizeBelowMinimum)
    else Ok(ChunkingConfig(chunkSize, overlapSize))
  }

  function Min(a: int, b: int): int
  {
    if a <= b then a else b
  }

  /** End of the window that starts at `start`. */
  function WindowEnd(text: string, cfg: ChunkingConfig, start: nat): nat
    requires ValidConfig(cfg)
  {
    Min(start + cfg.chunkSize, |text|)
  }

  /** The window at `start` as a chunk, or nothing when the window is blank. */
  function Here(text: string, cfg: ChunkingConfig, start: nat): seq<Chunk>
    requires ValidConfig(cfg) && start < |text|
  {
    var end := WindowEnd(text, cfg, start);
    if !IsBlank(text[start..end]) then [Chunk(text[start..end], start, end)] else []
  }

  /**
   * The chunks the window loop emits once it reaches `start`: the window
   * `[start, min(start + chunk_size, len))` is kept when it is not blank, and
   * the loop stops after the first window that reaches the end of the text.
   */
  function ChunksFrom(text: string, cfg: ChunkingConfig, start: nat): seq<Chunk>
    requires ValidConfig(cfg)
    decreases |text| - start
  {
    if start >= |text| then []
    else if WindowEnd(text, cfg, start) == |text| then Here(text, cfg, start)
    else Here(text, cfg, start) + ChunksFrom(text, cfg, start + Step(cfg))
  }

  /** `chunk_text_str.strip()` is truthy exactly when the window is kept. */
  lemma {:induction false} KeepIffNotBlank(text: string, cfg: ChunkingConfig, start: nat)
    requires ValidConfig(cfg) && start < |text|
    ensures var piece := text[start..WindowEnd(text, cfg, start)];
      Here(text, cfg, start) == if Strip(piece) != [] then [Chunk(piece, start, WindowEnd(text, cfg, start))] else []
  {
    StripEmptyIffBlank(text[start..WindowEnd(text, cfg, start)]);
  }

  /** One step of the window loop. */
  lemma {:induction false} ChunksFromStep(text: string, cfg: ChunkingConfig, start: nat)
    requires ValidConfig(cfg) && start < |text|
    ensures WindowEnd(text, cfg, start) == |text| ==> ChunksFrom(text, cfg, start) == Here(text, cfg, start)
    ensures WindowEnd(text, cfg, start) < |text| ==>
      ChunksFrom(text, cfg, start) == Here(text, cfg, start) + ChunksFrom(text, cfg, start + Step(cfg))
    ensures start + Step(cfg) >= |text| ==> ChunksFrom(text, cfg, start + Step(cfg)) == []
  {
  }

  /** A chunk that really is a non-blank window of `text` no longer than the chunk size. */
  predicate WellFormed(text: string, cfg: ChunkingConfig, c: Chunk)
  {
    c.start < c.end <= |text|
    && c.end - c.start <= cfg.chunkSize
    && c.text == text[c.start..c.end]
    && !IsBlank(c.text)
  }

  /** Every chunk is a non-blank slice of the input within the bounds. */
  lemma {:induction false} ChunksWellFormed(text: string, cfg: ChunkingConfig, s: nat)
    requires ValidConfig(cfg)
    ensures forall i :: 0 <= i < |ChunksFrom(text, cfg, s)| ==>
      WellFormed(text, cfg, ChunksFrom(text, cfg, s)[i]) && s <= ChunksFrom(text, cfg, s)[i].start
    decreases |text| - s
  {
    if s < |text| {
      if WindowEnd(text, cfg, s) != |text| {
        ChunksWellFormed(text, cfg, s + Step(cfg));
      }
    }
  }

  /** `x` is the start of one of the windows `s, s + step, s + 2 * step, ...`. */
  ghost predicate OnGrid(x: int, s: int, step: int)
  {
    exists k: nat :: x == s + k * step
  }

  lemma {:induction false} ShiftGrid(x: int, s: int, step: int)
    requires OnGrid(x, s + step, step)
    ensures OnGrid(x, s, step)
  {
    var k: nat :| x == s + step + k * step;
    assert x == s + (k + 1) * step;
  }

  /** Chunk starts are strictly increasing and lie on the grid `s + k * step`. */
  lemma {:induction false} ChunkStartsOnGrid(text: string, cfg: ChunkingConfig, s: nat)
    requires ValidConfig(cfg)
    ensures forall i :: 0 <= i < |ChunksFrom(text, cfg, s)| ==>
      OnGrid(ChunksFrom(text, cfg, s)[i].start, s, Step(cfg))
    ensures forall i, j :: 0 <= i < j < |ChunksFrom(text, cfg, s)| ==>
      ChunksFrom(text, cfg, s)[i].start < ChunksFrom(text, cfg, s)[j].start
    decreases |text| - s
  {
    if s < |text| {
      if WindowEnd(text, cfg, s) != |text| {
        var t := s + Step(cfg);
        ChunkStartsOnGrid(text, cfg, t);
        ChunksWellFormed(text, cfg, t);
        var rest := ChunksFrom(text, cfg, t);
        forall i | 0 <= i < |rest| ensures OnGrid(rest[i].start, s, Step(cfg)) {
          assert OnGrid(rest[i].start, t, Step(cfg));
          ShiftGrid(rest[i].start, s, Step(cfg));
        }
      }
      assert OnGrid(s, s, Step(cfg)) by {
        assert s == s + 0 * Step(cfg);
      }
    }
  }

  /** Once a chunk reaches the end of the text, no chunk follows it. */
  lemma {:induction false} NothingAfterEnd(text: string, cfg: ChunkingConfig, s: nat)
    requires ValidConfig(cfg)
    ensures forall i :: 0 <= i < |ChunksFrom(text, cfg, s)| && ChunksFrom(text, cfg, s)[i].end == |text| ==>
      i == |ChunksFrom(text, cfg, s)| - 1
    decreases |text| - s
  {
    if s < |text| {
      if WindowEnd(text, cfg, s) != |text| {
        var t := s + Step(cfg);
        NothingAfterEnd(text, cfg, t);
        var here := Here(text, cfg, s);
        var rest := ChunksFrom(text, cfg, t);
        var cs := ChunksFrom(text, cfg, s);
        assert cs == here + rest;
        forall i | 0 <= i < |cs| && cs[i].end == |text| ensures i == |cs| - 1 {
          if i >= |here| {
            assert cs[i] == rest[i - |here|];
          }
        }
      }
    }
  }

  /**
   * With a non-negative overlap consecutive windows leave no gap, so every
   * non-whitespace character at or after `s` lies inside some emitted chunk;
   * the lemma returns the index of one such chunk.
   */
  lemma {:induction false} Coverage(text: string, cfg: ChunkingConfig, s: nat, j: nat) returns (i: nat)
    requires ValidConfig(cfg) && cfg.overlapSize >= 0
    requires s <= j < |text| && !IsSpace(text[j])
    ensures var cs := ChunksFrom(text, cfg, s);
      i < |cs| && cs[i].start <= j < cs[i].end
    decreases |text| - s
  {
    if j < WindowEnd(text, cfg, s) {
      CoveredHere(text, cfg, s, j);
      i := 0;
    } else {
      var next := s + Step(cfg);
      assert WindowEnd(text, cfg, s) < |text| && next <= j;
      var k := Coverage(text, cfg, next, j);
      CoveredLater(text, cfg, s, k);
      i := |Here(text, cfg, s)| + k;
    }
  }

  /** A non-space character inside the window at `s` lies in the first chunk emitted from `s`. */
  lemma {:induction false} CoveredHere(text: string, cfg: ChunkingConfig, s: nat, j: nat)
    requires ValidConfig(cfg) && s <= j < WindowEnd(text, cfg, s) && !IsSpace(text[j])
    ensures var cs := ChunksFrom(text, cfg, s);
      0 < |cs| && cs[0].start <= j < cs[0].end
  {
    var end := WindowEnd(text, cfg, s);
    var piece := text[s..end];
    assert piece[j - s] == text[j];
    ChunksFromStep(text, cfg, s);
  }

  /** The k-th chunk emitted from the next window is chunk `|Here| + k` emitted from this one. */
  lemma {:induction false} CoveredLater(text: string, cfg: ChunkingConfig, s: nat, k: nat)
    requires ValidConfig(cfg) && s < |text| && WindowEnd(text, cfg, s) < |text|
    requires k < |ChunksFrom(text, cfg, s + Step(cfg))|
    ensures var cs := ChunksFrom(text, cfg, s);
      |Here(text, cfg, s)| + k < |cs| && cs[|Here(text, cfg, s)| + k] == ChunksFrom(text, cfg, s + Step(cfg))[k]
  {
    ChunksFromStep(text, cfg, s);
  }

  /** The properties of `chunk_text`'s output, gathered for the whole text. */
  lemma {:induction false} ChunkProperties(text: string, cfg: ChunkingConfig)
    requires ValidConfig(cfg)
    ensures text == [] ==> ChunksFrom(text, cfg, 0) == []
    ensures forall i :: 0 <= i < |ChunksFrom(text, cfg, 0)| ==>
      WellFormed(text, cfg, ChunksFrom(text, cfg, 0)[i]) && OnGrid(ChunksFrom(text, cfg, 0)[i].start, 0, Step(cfg))
    ensures forall i, j :: 0 <= i < j < |ChunksFrom(text, cfg, 0)| ==>
      ChunksFrom(text, cfg, 0)[i].start < ChunksFrom(text, cfg, 0)[j].start
    ensures forall i :: 0 <= i < |ChunksFrom(text, cfg, 0)| && ChunksFrom(text, cfg, 0)[i].end == |text| ==>
      i == |ChunksFrom(text, cfg, 0)| - 1
    ensures cfg.overlapSize >= 0 ==>
      forall j :: 0 <= j < |text| && !IsSpace(text[j]) ==>
        exists i :: 0 <= i < |ChunksFrom(text, cfg, 0)| &&
          ChunksFrom(text, cfg, 0)[i].start <= j < ChunksFrom(text, cfg, 0)[i].end
  {
    ChunksWellFormed(text, cfg, 0);
    ChunkStartsOnGrid(text, cfg, 0);
    NothingAfterEnd(text, cfg, 0);
    if cfg.overlapSize >= 0 {
      var cs := ChunksFrom(text, cfg, 0);
      forall j | 0 <= j < |text| && !IsSpace(text[j])
        ensures exists i :: 0 <= i < |cs| && cs[i].start <= j < cs[i].end
      {
        var i := Coverage(text, cfg, 0, j);
      }
    }
  }

  /** `config or DEFAULT_CHUNKING`. */
  function Effective(config: Option<ChunkingConfig>): ChunkingConfig
  {
    if config.Some? then config.value else DefaultChunking
  }

  /**
   * The loop invariant of `chunk_text` survives a window after which the
   * loop goes on: `done` is what the loop held before the window at `start`,
   * `now` what it holds after it, and `next` where the next window starts.
   */
  lemma {:induction false} ChunksFromAdvance(text: string, cfg: ChunkingConfig, start: nat, next: nat,
                                             done: seq<Chunk>, now: seq<Chunk>, total: seq<Chunk>)
    requires ValidConfig(cfg) && start < |text| && next == start + Step(cfg)
    requires !(next < |text| && WindowEnd(text, cfg, start) == |text|)
    requires done + ChunksFrom(text, cfg, start) == total
    requires now == done + Here(text, cfg, start)
    ensures now + ChunksFrom(text, cfg, next) == total
  {
    var here, rest := Here(text, cfg, start), ChunksFrom(text, cfg, next);
    ChunksFromStep(text, cfg, start);
    if WindowEnd(text, cfg, start) < |text| {
      Regroup(done, here, rest, ChunksFrom(text, cfg, start), now, total);
    } else {
      assert rest == [] && here + rest == here;
      Regroup(done, here, rest, ChunksFrom(text, cfg, start), now, total);
    }
  }

  /** Moving one window's chunks from the remaining output to the output so far. */
  lemma {:induction false} Regroup<T>(done: seq<T>, here: seq<T>, rest: seq<T>, remaining: seq<T>, now: seq<T>, total: seq<T>)
    requires remaining == here + rest && done + remaining == total && now == done + here
    ensures now + rest == total
  {
    ConcatAssoc(done, here, rest);
  }

  /** When the loop breaks, the window it just kept or dropped was the last one. */
  lemma {:induction false} ChunksFromLast(text: string, cfg: ChunkingConfig, start: nat,
                                          done: seq<Chunk>, now: seq<Chunk>, total: seq<Chunk>)
    requires ValidConfig(cfg) && start < |text| && WindowEnd(text, cfg, start) == |text|
    requires done + ChunksFrom(text, cfg, start) == total
    requires now == done + Here(text, cfg, start)
    ensures now == total
  {
    ChunksFromStep(text, cfg, start);
  }

  /**
   * `chunk_text`: slides a window of `chunk_size` characters forward by
   * `step`, keeps each window that is not blank, and stops after the window
   * that reaches the end of the text.  `None` selects the default
   * configuration.
   */
  method ChunkText(text: string, config: Option<ChunkingConfig>) returns (chunks: seq<Chunk>)
    requires config.Some? ==> ValidConfig(config.value)
    ensures chunks == ChunksFrom(text, Effective(config), 0)
  {
    var cfg := Effective(config);
    chunks := [];
    var start := 0;
    ghost var total := ChunksFrom(text, cfg, 0);
    while start < |text|
      invariant chunks + ChunksFrom(text, cfg, start) == total
      decreases |text| - start
    {
      var end := WindowEnd(text, cfg, start);
      var piece := text[start..end];
      ghost var done, from := chunks, start;
      KeepIffNotBlank(text, cfg, start);
      if Strip(piece) != [] {
        chunks := chunks + [Chunk(piece, start, end)];
      } else {
        assert chunks == done + [];
      }
      start := start + Step(cfg);
      if start < |text| && end == |text| {
        ChunksFromLast(text, cfg, from, done, chunks, total);
        break;
      }
      ChunksFromAdvance(text, cfg, from, start, done, chunks, total);
    }
  }
}
