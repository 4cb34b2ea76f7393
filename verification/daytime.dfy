/** The home page's time-of-day banner: the current hour picks a part of the
    day, and the part of the day picks a landscape picture. */
module DayTimes {
  import opened Wrappers

  /** The four string labels `'morning' | 'afternoon' | 'evening' | 'night'`. */
  datatype DayTime = Morning | Afternoon | Evening | Night

  /** The label as the page spells it. */
  function Label(d: DayTime): string {
    match d
    case Morning => "morning"
    case Afternoon => "afternoon"
    case Evening => "evening"
    case Night => "night"
  }

  /** The hours each part of the day covers, stated as windows: the three
      daytime windows are half-open, and night is everything outside
      [6, 22), including hours outside 0..23. */
  predicate InWindow(d: DayTime, h: int) {
    match d
    case Morning => 6 <= h < 12
    case Afternoon => 12 <= h < 18
    case Evening => 18 <= h < 22
    case Night => h < 6 || 22 <= h
  }

  /** `getDayTime`: no hour yet gives no part of the day; otherwise the
      hour is tested against the morning, afternoon and evening windows in
      turn, and anything left over is night. */
  function GetDayTime(currentHours: Option<int>): (r: Option<DayTime>)
    ensures r.None? <==> currentHours.None?
    ensures currentHours.Some? ==> r.Some? && InWindow(r.value, currentHours.value)
  {
    match currentHours
    case None => None
    case Some(h) =>
      Some(if h >= 6 && h < 12 then Morning
           else if h >= 12 && h < 18 then Afternoon
           else if h >= 18 && h < 22 then Evening
           else Night)
  }

  /** The windows partition the integers: every hour lies in exactly one. */
  lemma WindowsPartition(h: int)
    ensures exists d :: InWindow(d, h)
    ensures forall d1, d2 :: InWindow(d1, h) && InWindow(d2, h) ==> d1 == d2
  {
    assert InWindow(GetDayTime(Some(h)).value, h);
  }

  /** Classification of a present hour is exactly window membership, in
      both directions. */
  lemma GetDayTimeIsWindow(h: int, d: DayTime)
    ensures GetDayTime(Some(h)) == Some(d) <==> InWindow(d, h)
  {
    WindowsPartition(h);
  }

  /** `getLandscapeUrlByTime`: the picture for a part of the day; a missing
      part of the day falls back to the morning picture. */
  function LandscapeFile(d: Option<DayTime>): (f: string)
    ensures d.Some? ==> f == "pungmu_" + Label(d.value) + "_s.jpg"
    ensures d.None? ==> f == "pungmu_" + Label(Morning) + "_s.jpg"
  {
    match d
    case Some(Morning) => "pungmu_morning_s.jpg"
    case Some(Afternoon) => "pungmu_afternoon_s.jpg"
    case Some(Evening) => "pungmu_evening_s.jpg"
    case Some(Night) => "pungmu_night_s.jpg"
    case None => "pungmu_morning_s.jpg"
  }

  /** Distinct parts of the day show distinct pictures. */
  lemma LandscapeFileInjective(a: DayTime, b: DayTime)
    requires a != b
    ensures LandscapeFile(Some(a)) != LandscapeFile(Some(b))
  {
    assert LandscapeFile(Some(a))[7] == Label(a)[0];
    assert LandscapeFile(Some(b))[7] == Label(b)[0];
  }
}
