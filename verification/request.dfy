/** The request path `write` posts the bulk list to. */
module Request {
  import opened Settings

  /** A part of a prefix of `p` is the same part of `p`. */
  lemma SliceOfPrefix(a: string, p: string, i: nat, j: nat)
    requires |a| <= |p| && a == p[..|a|] && i <= j <= |a|
    ensures p[i..j] == a[i..j]
  {
  }

  /** The concatenation of line 79, over plain strings. */
  function Concat(db: string, user: string, password: string, precision: string): string {
    "/db/" + db + "/series?u=" + user + "&p=" + password + "&time_precision=" + precision
  }

  /** Where each part of the concatenation sits. */
  lemma {:induction false} ConcatLayout(db: string, user: string, password: string, precision: string)
    ensures var p := Concat(db, user, password, precision);
      var u := 4 + |db| + 10;              // where the user starts
      var w := u + |user| + 3;             // where the password starts
      var t := w + |password| + 16;        // where the precision starts
      && |p| == t + |precision|
      && p[..4] == "/db/" && p[4..4 + |db|] == db
      && p[4 + |db|..u] == "/series?u=" && p[u..u + |user|] == user
      && p[u + |user|..w] == "&p=" && p[w..w + |password|] == password
      && p[w + |password|..t] == "&time_precision=" && p[t..] == precision
  {
    var a1 := "/db/" + db;
    var a2 := a1 + "/series?u=";
    var a3 := a2 + user;
    var a4 := a3 + "&p=";
    var a5 := a4 + password;
    var a6 := a5 + "&time_precision=";
    var p := a6 + precision;
    assert p == Concat(db, user, password, precision);
    assert a6 == p[..|a6|];
    assert a5 == a6[..|a5|];
    assert a4 == a5[..|a4|];
    assert a3 == a4[..|a3|];
    assert a2 == a3[..|a2|];
    assert a1 == a2[..|a1|];
    assert a5 == p[..|a5|];
    assert a4 == p[..|a4|];
    assert a3 == p[..|a3|];
    assert a2 == p[..|a2|];
    assert a1 == p[..|a1|];
    SliceOfPrefix(a1, p, 0, 4);
    SliceOfPrefix(a1, p, 4, |a1|);
    SliceOfPrefix(a2, p, |a1|, |a2|);
    SliceOfPrefix(a3, p, |a2|, |a3|);
    SliceOfPrefix(a4, p, |a3|, |a4|);
    SliceOfPrefix(a5, p, |a4|, |a5|);
    SliceOfPrefix(a6, p, |a5|, |a6|);
    assert a1[0..4] == "/db/" && a1[4..|a1|] == db;
    assert a2[|a1|..|a2|] == "/series?u=";
    assert a3[|a2|..|a3|] == user;
    assert a4[|a3|..|a4|] == "&p=";
    assert a5[|a4|..|a5|] == password;
    assert a6[|a5|..|a6|] == "&time_precision=";
    assert p[|a6|..] == precision;
  }

  /**
    `/db/<dbname>/series?u=<user>&p=<password>&time_precision=<time_precision>`,
    each value interpolated verbatim, without URL escaping.
   */
  function SeriesPath(cfg: Config): (p: string)
    ensures var u := 4 + |cfg.dbname| + 10;   // where the user starts
      var w := u + |cfg.user| + 3;             // where the password starts
      var t := w + |cfg.password| + 16;        // where the precision starts
      && |p| == t + |cfg.timePrecision|
      && p[..4] == "/db/" && p[4..4 + |cfg.dbname|] == cfg.dbname
      && p[4 + |cfg.dbname|..u] == "/series?u=" && p[u..u + |cfg.user|] == cfg.user
      && p[u + |cfg.user|..w] == "&p=" && p[w..w + |cfg.password|] == cfg.password
      && p[w + |cfg.password|..t] == "&time_precision=" && p[t..] == cfg.timePrecision
  {
    ConcatLayout(cfg.dbname, cfg.user, cfg.password, cfg.timePrecision);
    Concat(cfg.dbname, cfg.user, cfg.password, cfg.timePrecision)
  }

  /** The path under the default configuration. */
  lemma DefaultSeriesPath()
    ensures SeriesPath(Defaults) == "/db/fluentd/series?u=root&p=root&time_precision=s"
  {
    var cfg := Config("time", "time", false, "", "fluentd", "root", "root", "s");
    assert cfg == Defaults;
    assert "/db/" + "fluentd" == "/db/fluentd";
    assert "/db/fluentd" + "/series?u=" == "/db/fluentd/series?u=";
    assert "/db/fluentd/series?u=" + "root" + "&p=" == "/db/fluentd/series?u=root&p=";
    assert "/db/fluentd/series?u=root&p=" + "root" + "&time_precision=" + "s" == "/db/fluentd/series?u=root&p=root&time_precision=s";
  }

  /**
    Without escaping the path does not determine the credentials: a user name
    containing `&p=` and a different split of the same characters give one path.
   */
  lemma SeriesPathUnescaped()
    ensures var a := Defaults.(user := "a&p=b", password := "c");
      var b := Defaults.(user := "a", password := "b&p=c");
      a != b && SeriesPath(a) == SeriesPath(b)
  {
  }
}
