/**
 * The pure helpers of the speed-test plugin: the localised message table
 * with its fallbacks, and the estimate of how long a download of a given
 * size takes at a measured speed. Floats are idealised as reals.
 */
module Speedtest {
  import opened Text

  // ---------------------------------------------------------------------
  // get_string
  // ---------------------------------------------------------------------

  const RuNoSpeedtest :=
    "❌ Библиотека speedtest-cli не найдена!\n\n"
    + "Установка:\n"
    + "pip install speedtest-cli\n\n"
    + "После установки перезапустите бота командой:\n"
    + ".restart"

  const RuResults :=
    "📈 Тест скорости интернета:\n\n"
    + "⬇️ Загрузка: {download} Мбит/с\n"
    + "⬆️ Отдача: {upload} Мбит/с\n"
    + "⏲ Пинг: {ping:.1f} мс\n\n"
    + "📍 Сервер: {server_name}, {server_country}\n"
    + "⚙ Провайдер: {server_sponsor}\n\n"
    + "🕔 Примерное время загрузки:\n"
    + "🖼 Фото (5 МБ): {est_5mb}\n"
    + "📦 Приложение (100 МБ): {est_100mb}\n"
    + "📼 HD Фильм (2 ГБ): {est_2gb}\n"
    + "🎮 Игра (50 ГБ): {est_50gb}\n\n"
    + "⏲ Тест занял: {duration:.1f} сек\n"
    + "🗓 Время (МСК): {time_msk}"

  const EnNoSpeedtest :=
    "❌ speedtest-cli library not found!\n\n"
    + "Install:\n"
    + "pip install speedtest-cli\n\n"
    + "After installation, restart the bot:\n"
    + ".restart"

  const EnResults :=
    "📈 Internet Speed Test:\n\n"
    + "⬇️ Download: {download} Mbps\n"
    + "⬆️ Upload: {upload} Mbps\n"
    + "⏲ Ping: {ping:.1f} ms\n\n"
    + "📍 Server: {server_name}, {server_country}\n"
    + "⚙ Provider: {server_sponsor}\n\n"
    + "🕔 Estimated download time:\n"
    + "🖼 Photo (5 MB): {est_5mb}\n"
    + "📦 App (100 MB): {est_100mb}\n"
    + "📼 HD Movie (2 GB): {est_2gb}\n"
    + "🎮 Game (50 GB): {est_50gb}\n\n"
    + "⏲ Test took: {duration:.1f} sec\n"
    + "🗓 Time (MSK): {time_msk}"

  const Ru: map<string, string> := map[
    "no_speedtest" := RuNoSpeedtest,
    "starting_test" := "💬 Запуск теста скорости...\nПоиск лучшего сервера...",
    "selecting_server" := "💬 Запуск теста скорости...\nВыбор оптимального сервера...",
    "testing_download" := "💬 Запуск теста скорости...\n⬇️ Тестирование скорости загрузки...",
    "testing_upload" := "💬 Запуск теста скорости...\n⬆️ Тестирование скорости отдачи...",
    "finalizing_results" := "💬 Запуск теста скорости...\nОбработка результатов...",
    "error" := "❌ Не удалось выполнить тест скорости:\n{}",
    "results" := RuResults
  ]

  const En: map<string, string> := map[
    "no_speedtest" := EnNoSpeedtest,
    "starting_test" := "💬 Running speed test...\nFinding best server...",
    "selecting_server" := "💬 Running speed test...\nSelecting optimal server...",
    "testing_download" := "💬 Running speed test...\n⬇️ Testing download speed...",
    "testing_upload" := "💬 Running speed test...\n⬆️ Testing upload speed...",
    "finalizing_results" := "💬 Running speed test...\nProcessing results...",
    "error" := "❌ Speed test failed:\n{}",
    "results" := EnResults
  ]

  /** `STRINGS`: one table per language. */
  const Strings: map<string, map<string, string>> := map["ru" := Ru, "en" := En]

  /**
   * `get_string(key, lang)`: the entry of the language's table, the English
   * table standing in for an unknown language, and the English entry (or
   * "") standing in for a missing key.
   */
  function GetString(key: string, lang: string := "ru"): (r: string)
    ensures lang in Strings && key in Strings[lang] ==> r == Strings[lang][key]
    ensures lang !in Strings && key in En ==> r == En[key]
    ensures key !in Strings[if lang in Strings then lang else "en"] ==>
      r == (if key in En then En[key] else "")
  {
    var table := if lang in Strings then Strings[lang] else Strings["en"];
    if key in table then table[key]
    else if key in En then En[key]
    else ""
  }

  /** Both tables translate the same keys. */
  lemma TablesAgree()
    ensures Ru.Keys == En.Keys
  {
  }

  /** No entry of either table is empty. */
  lemma EntriesNonEmpty()
    ensures forall k :: k in Ru ==> Ru[k] != ""
    ensures forall k :: k in En ==> En[k] != ""
  {
  }

  /** The default language is Russian, and a known key is found in any other language. */
  lemma GetStringDefaults(key: string, lang: string)
    ensures key in Ru ==> GetString(key) == Ru[key]
    ensures lang != "ru" && key in En ==> GetString(key, lang) == En[key]
  {
    TablesAgree();
  }

  /** The lookup is empty exactly for a key neither table has. */
  lemma GetStringEmptyIff(key: string, lang: string)
    ensures GetString(key, lang) == "" <==> key !in En
  {
    TablesAgree();
    EntriesNonEmpty();
  }

  // ---------------------------------------------------------------------
  // estimate_download_time
  // ---------------------------------------------------------------------

  /** The shapes of an estimate text. */
  datatype Estimate =
    | NotAvailable
    | UnderOneSecond
    | Seconds(secs: int)
    | MinutesSeconds(minutes: int, secs: int)
    | Minutes(minutes: int)
    | HoursMinutes(hours: int, minutes: int)

  /** Python's `int(x)`: truncation toward zero. */
  function Trunc(x: real): int {
    if x >= 0.0 then x.Floor else -((-x).Floor)
  }

  /** Python's `x % y` on floats with `y > 0`: the result takes the sign of `y`. */
  function FMod(x: real, y: real): real
    requires y > 0.0
  {
    x - y * (x / y).Floor as real
  }

  /** The seconds a transfer of `fileSizeMb` megabytes takes at `speedMbps` megabits per second. */
  function TransferTime(fileSizeMb: real, speedMbps: real): real
    requires speedMbps > 0.0
  {
    fileSizeMb / (speedMbps / 8.0)
  }

  /**
   * `estimate_download_time(file_size_mb, download_speed_mbps)` before
   * rendering: "N/A" for a speed that is not positive, otherwise the bucket
   * the transfer time falls in, with the thresholds 1, 60 and 3600 seconds.
   */
  function EstimateDownloadTime(fileSizeMb: real, speedMbps: real): (e: Estimate)
    ensures e.NotAvailable? <==> speedMbps <= 0.0
    ensures speedMbps > 0.0 ==> (e.UnderOneSecond? <==> TransferTime(fileSizeMb, speedMbps) < 1.0)
    ensures speedMbps > 0.0 ==> (e.Seconds? <==> 1.0 <= TransferTime(fileSizeMb, speedMbps) < 60.0)
    ensures speedMbps > 0.0 ==>
      (e.MinutesSeconds? || e.Minutes? <==> 60.0 <= TransferTime(fileSizeMb, speedMbps) < 3600.0)
    ensures speedMbps > 0.0 ==> (e.HoursMinutes? <==> 3600.0 <= TransferTime(fileSizeMb, speedMbps))
  {
    if speedMbps <= 0.0 then NotAvailable
    else
      var speedMBs := speedMbps / 8.0;
      if speedMBs <= 0.0 then NotAvailable
      else
        var t := fileSizeMb / speedMBs;
        if t < 1.0 then UnderOneSecond
        else if t < 60.0 then Seconds(Trunc(t))
        else if t < 3600.0 then
          var minutes := Trunc(t / 60.0);
          var seconds := Trunc(FMod(t, 60.0));
          assert minutes >= 1 by { FloorBounds(t / 60.0); }
          if minutes > 0 && seconds > 0 then MinutesSeconds(minutes, seconds)
          else if minutes > 0 then Minutes(minutes)
          else Seconds(seconds)
        else
          HoursMinutes(Trunc(t / 3600.0), Trunc(FMod(t, 3600.0) / 60.0))
  }

  /** The f-string of each bucket; only the unavailable estimate reads "N/A". */
  function RenderEstimate(e: Estimate): (r: string)
    ensures |r| > 0
    ensures r == "N/A" <==> e.NotAvailable?
  {
    match e
    case NotAvailable => "N/A"
    case UnderOneSecond => "< 1 сек"
    case Seconds(s) => IntToString(s) + " сек"
    case MinutesSeconds(m, s) => IntToString(m) + " мин " + IntToString(s) + " сек"
    case Minutes(m) => IntToString(m) + " мин"
    case HoursMinutes(h, m) => IntToString(h) + "ч " + IntToString(m) + "м"
  }

  /** The text `estimate_download_time` returns: "N/A" exactly for a speed that is not positive. */
  function EstimateText(fileSizeMb: real, speedMbps: real): (r: string)
    ensures r == "N/A" <==> speedMbps <= 0.0
    ensures speedMbps > 0.0 && TransferTime(fileSizeMb, speedMbps) < 1.0 ==> r == "< 1 сек"
  {
    RenderEstimate(EstimateDownloadTime(fileSizeMb, speedMbps))
  }

  /** "N/A" exactly when the speed is not positive: the second guard never fires over reals. */
  lemma NotAvailableIff(fileSizeMb: real, speedMbps: real)
    ensures EstimateDownloadTime(fileSizeMb, speedMbps) == NotAvailable <==> speedMbps <= 0.0
  {
  }

  /** Under a second, and whole seconds below a minute. */
  lemma EstimateShortBuckets(fileSizeMb: real, speedMbps: real)
    requires speedMbps > 0.0
    ensures var t := TransferTime(fileSizeMb, speedMbps);
      && (t < 1.0 ==> EstimateDownloadTime(fileSizeMb, speedMbps) == UnderOneSecond)
      && (1.0 <= t < 60.0 ==>
            var e := EstimateDownloadTime(fileSizeMb, speedMbps);
            e.Seconds? && 1 <= e.secs <= 59 && e.secs as real <= t < e.secs as real + 1.0)
  {
  }

  lemma FloorBounds(x: real)
    ensures x.Floor as real <= x < x.Floor as real + 1.0
  {
  }

  /**
   * Between a minute and an hour: at least one minute, so the seconds-only
   * branch is never taken; "N мин" exactly when the seconds part is zero.
   */
  lemma EstimateMinutesBucket(fileSizeMb: real, speedMbps: real)
    requires speedMbps > 0.0
    requires 60.0 <= TransferTime(fileSizeMb, speedMbps) < 3600.0
    ensures var t := TransferTime(fileSizeMb, speedMbps);
      var e := EstimateDownloadTime(fileSizeMb, speedMbps);
      && (e.MinutesSeconds? || e.Minutes?)
      && 1 <= e.minutes <= 59
      && (e.MinutesSeconds? ==>
            1 <= e.secs <= 59 &&
            (e.minutes * 60 + e.secs) as real <= t < (e.minutes * 60 + e.secs) as real + 1.0)
      && (e.Minutes? ==> (e.minutes * 60) as real <= t < (e.minutes * 60) as real + 1.0)
  {
    var t := TransferTime(fileSizeMb, speedMbps);
    var q := (t / 60.0).Floor;
    FloorBounds(t / 60.0);
    assert q as real * 60.0 <= t < q as real * 60.0 + 60.0;
    var rem := t - 60.0 * q as real;
    assert 0.0 <= rem < 60.0;
    FloorBounds(rem);
  }

  /** An hour or more: whole hours and the minutes of the last hour, below 60. */
  lemma EstimateHoursBucket(fileSizeMb: real, speedMbps: real)
    requires speedMbps > 0.0
    requires 3600.0 <= TransferTime(fileSizeMb, speedMbps)
    ensures var t := TransferTime(fileSizeMb, speedMbps);
      var e := EstimateDownloadTime(fileSizeMb, speedMbps);
      && e.HoursMinutes?
      && 1 <= e.hours && 0 <= e.minutes < 60
      && (e.hours * 3600 + e.minutes * 60) as real <= t < (e.hours * 3600 + e.minutes * 60 + 60) as real
  {
    var t := TransferTime(fileSizeMb, speedMbps);
    var q := (t / 3600.0).Floor;
    FloorBounds(t / 3600.0);
    assert q as real * 3600.0 <= t < q as real * 3600.0 + 3600.0;
    var rem := t - 3600.0 * q as real;
    assert 0.0 <= rem < 3600.0;
    FloorBounds(rem / 60.0);
  }
}
