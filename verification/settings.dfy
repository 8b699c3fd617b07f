/** The recorder's configuration constants, gathered into one immutable value. */
module Settings {

  datatype Config = Config(
    primaryUrl: string,
    fallbackUrl: string,
    fullDurationSeconds: int,
    ffmpegPath: string,
    minRetryDuration: int)

  /** FULL_DURATION_MINUTES: Python's `//`, which floors; Dafny's `/` by the positive 60 floors too. */
  function FullDurationMinutes(cfg: Config): (m: int)
    ensures m * 60 <= cfg.fullDurationSeconds < m * 60 + 60
  {
    cfg.fullDurationSeconds / 60
  }

  /** The whole-minute recording budget, in seconds, that the job aims to fill. */
  function BudgetSeconds(cfg: Config): (b: int)
    ensures b <= cfg.fullDurationSeconds < b + 60
    ensures b % 60 == 0
    ensures cfg.fullDurationSeconds % 60 == 0 ==> b == cfg.fullDurationSeconds
  {
    FullDurationMinutes(cfg) * 60
  }

  /** The values the recorder ships with. */
  const Recorder := Config(
    "https://18313.live.streamtheworld.com/CHQMFM_ADP/HLS/playlist.m3u8",
    "https://25083.live.streamtheworld.com/CHQMFM_ADP/HLS/playlist.m3u8",
    600,
    "/usr/bin/ffmpeg",
    10)

  /** With the shipped constants the budget is the whole ten minutes and the retry threshold ten seconds. */
  lemma RecorderBudget()
    ensures FullDurationMinutes(Recorder) == 10
    ensures BudgetSeconds(Recorder) == Recorder.fullDurationSeconds == 600
    ensures Recorder.minRetryDuration == 10
  {
  }
}
