/**
 * The computed parts of the about page: the uptime text, the service title
 * made from the product name, and which optional sections and footer
 * entries the page shows. The HTML template around them is not modelled.
 */
module AboutPage {
  import opened Wrappers
  import opened Js
  import Strings
  import PgDb

  /** The uptime in whole hours, minutes and seconds. */
  datatype Uptime = Uptime(hours: nat, minutes: nat, seconds: nat)

  /** getUptime's arithmetic: the whole seconds elapsed, split into hours, minutes and seconds. */
  function UptimeParts(uptimeMs: nat): (u: Uptime)
    ensures u.hours * 3600 + u.minutes * 60 + u.seconds == uptimeMs / 1000
    ensures u.minutes < 60 && u.seconds < 60
  {
    var s := uptimeMs / 1000;
    Uptime(s / 3600, (s % 3600) / 60, s % 60)
  }

  /** Splitting is unique: any hours, minutes and seconds with minutes and seconds below 60 are the split of their total. */
  lemma {:induction false} UptimePartsUnique(uptimeMs: nat, u: Uptime)
    requires u.minutes < 60 && u.seconds < 60
    requires u.hours * 3600 + u.minutes * 60 + u.seconds == uptimeMs / 1000
    ensures UptimeParts(uptimeMs) == u
  {
    var s := uptimeMs / 1000;
    var v := UptimeParts(uptimeMs);
    assert u.minutes * 60 + u.seconds < 3600;
    assert v.minutes * 60 + v.seconds < 3600;
    if u.hours < v.hours {
      assert false;
    } else if u.hours > v.hours {
      assert false;
    }
    assert u.minutes * 60 + u.seconds == v.minutes * 60 + v.seconds;
  }

  /** getUptime: "Hh Mm Ss" from one hour on, "Mm Ss" from one minute on, otherwise "Ss". */
  function FormatUptime(uptimeMs: nat): (r: string)
    ensures var s := uptimeMs / 1000;
      && (s >= 3600 ==> r == Strings.NatToString(s / 3600) + "h " + Strings.NatToString((s % 3600) / 60) + "m "
                             + Strings.NatToString(s % 60) + "s")
      && (60 <= s < 3600 ==> r == Strings.NatToString(s / 60) + "m " + Strings.NatToString(s % 60) + "s")
      && (s < 60 ==> r == Strings.NatToString(s) + "s")
  {
    var u := UptimeParts(uptimeMs);
    if u.hours > 0 then
      Strings.NatToString(u.hours) + "h " + Strings.NatToString(u.minutes) + "m " + Strings.NatToString(u.seconds) + "s"
    else if u.minutes > 0 then
      Strings.NatToString(u.minutes) + "m " + Strings.NatToString(u.seconds) + "s"
    else
      Strings.NatToString(u.seconds) + "s"
  }

  /** No two white-space characters in a row. */
  predicate NoDoubleSpaces(s: string) {
    forall i :: 0 <= i < |s| - 1 ==> !(Strings.IsSpace(s[i]) && Strings.IsSpace(s[i + 1]))
  }

  /** `s.replace(/\s{2,}/g, ' ')`: every run of two or more white-space characters becomes one space. */
  function CollapseSpaces(s: string): (r: string)
    ensures |r| <= |s| && (r == [] <==> s == [])
    ensures s != [] ==> (Strings.IsSpace(r[0]) <==> Strings.IsSpace(s[0]))
    ensures NoDoubleSpaces(r)
    ensures NoDoubleSpaces(s) ==> r == s
    decreases |s|
  {
    if s == [] then []
    else if |s| >= 2 && Strings.IsSpace(s[0]) && Strings.IsSpace(s[1]) then
      var rest := Strings.TrimStart(s);
      var r := " " + CollapseSpaces(rest);
      assert rest == [] || !Strings.IsSpace(rest[0]);
      r
    else
      var r := [s[0]] + CollapseSpaces(s[1..]);
      assert Strings.IsSpace(s[0]) && |s| >= 2 ==> !Strings.IsSpace(s[1]);
      r
  }

  lemma SliceKeepsNoDoubleSpaces(s: string, a: nat, b: nat)
    requires NoDoubleSpaces(s) && a <= b <= |s|
    ensures NoDoubleSpaces(s[a..b])
  {
    var t := s[a..b];
    forall i | 0 <= i < |t| - 1 ensures !(Strings.IsSpace(t[i]) && Strings.IsSpace(t[i + 1])) {
      assert t[i] == s[a + i] && t[i + 1] == s[a + i + 1];
    }
  }

  /** Trimming keeps a string free of doubled white space. */
  lemma TrimKeepsNoDoubleSpaces(s: string)
    requires NoDoubleSpaces(s)
    ensures NoDoubleSpaces(Strings.Trim(s))
  {
    var t := Strings.TrimStart(s);
    SliceKeepsNoDoubleSpaces(s, |s| - |t|, |s|);
    var r := Strings.TrimEnd(t);
    SliceKeepsNoDoubleSpaces(t, 0, |r|);
  }

  /** `s.replace(/MCP/i, '')`: the first occurrence of "MCP", in any letter case, is removed. */
  function RemoveFirstMcp(s: string): (r: string)
    ensures Strings.IndexOf(Strings.Lower(s), "mcp").None? ==> r == s
    ensures Strings.IndexOf(Strings.Lower(s), "mcp").Some? ==>
      var i := Strings.IndexOf(Strings.Lower(s), "mcp").value;
      i + 3 <= |s| && r == s[..i] + s[i + 3..]
  {
    match Strings.IndexOf(Strings.Lower(s), "mcp")
    case None => s
    case Some(i) => s[..i] + s[i + 3..]
  }

  /**
   * The service title: the product name without its first "MCP", each run
   * of white space collapsed to one space, trimmed. A name without "MCP"
   * that is already tidy is kept as it is.
   */
  function ServiceTitle(productName: string): (r: string)
    ensures r == [] || (!Strings.IsSpace(r[0]) && !Strings.IsSpace(r[|r| - 1]))
    ensures NoDoubleSpaces(r)
    ensures Strings.IndexOf(Strings.Lower(productName), "mcp").None? && NoDoubleSpaces(productName)
      && (productName == [] || (!Strings.IsSpace(productName[0]) && !Strings.IsSpace(productName[|productName| - 1])))
      ==> r == productName
  {
    var collapsed := CollapseSpaces(RemoveFirstMcp(productName));
    var r := Strings.Trim(collapsed);
    assert r == [] || (!Strings.IsSpace(r[0]) && !Strings.IsSpace(r[|r| - 1]));
    TrimKeepsNoDoubleSpaces(collapsed);
    r
  }

  /** The database line of the page. */
  datatype DbInfo = DbInfo(host: string, port: string, database: string, status: string)

  /** The Consul line of the page: the service id and its link in the Consul UI. */
  datatype ConsulInfo = ConsulInfo(id: string, link: string)

  /** The optional sections the page shows. */
  datatype Sections = Sections(swagger: bool, db: Option<DbInfo>, consul: Option<ConsulInfo>)

  function RepoLink(repo: Value): string {
    "<a href=\"" + ToStr(repo) + "\" target=\"_blank\" rel=\"noopener\">GitHub Repository</a>"
  }

  /**
   * renderAboutPage's optional sections, each chosen on its own: the
   * Swagger line only with an HTTP swagger component; the database line,
   * with the connection status, only when the main database is used; the
   * Consul line only when registration is on and the service has an id.
   * `pool` is what getPoolPg gives when the status is asked for.
   */
  method ChooseSections(
    httpComponents: Value, isMainDBUsed: bool, pool: Result<Value, string>,
    host: string, port: string, database: string,
    noRegOnStart: Value, consulId: Value, consulUIAddress: Value -> string)
    returns (s: Sections)
    ensures s.swagger <==> Truthy(Get(httpComponents, "swagger"))
    ensures s.db.Some? <==> isMainDBUsed
    ensures s.db.Some? ==> s.db.value.status == PgDb.ConnectionStatus(true, pool)
    ensures s.db.Some? ==> s.db.value.host == host && s.db.value.port == port && s.db.value.database == database
    ensures s.consul.Some? <==> !Truthy(noRegOnStart) && Truthy(consulId)
    ensures s.consul.Some? ==> s.consul.value == ConsulInfo(ToStr(consulId), consulUIAddress(consulId))
  {
    var swaggerInfo := false;
    if Truthy(Get(httpComponents, "swagger")) {
      swaggerInfo := true;
    }
    var dbInfo: Option<DbInfo> := None;
    if isMainDBUsed {
      var dbStatus := PgDb.ConnectionStatus(true, pool);
      dbInfo := Some(DbInfo(host, port, database, dbStatus));
    }
    var consulInfo: Option<ConsulInfo> := None;
    if !Truthy(noRegOnStart) {
      if Truthy(consulId) {
        consulInfo := Some(ConsulInfo(ToStr(consulId), consulUIAddress(consulId)));
      }
    }
    s := Sections(swaggerInfo, dbInfo, consulInfo);
  }

  /** The footer entries: the repository link, then the maintainer's HTML, each only when given. */
  method FooterData(repo: Value, maintainerHtml: Value) returns (footerData: seq<string>)
    ensures footerData == (if Truthy(repo) then [RepoLink(repo)] else [])
      + (if Truthy(maintainerHtml) then [ToStr(maintainerHtml)] else [])
  {
    footerData := [];
    if Truthy(repo) {
      footerData := footerData + [RepoLink(repo)];
    }
    if Truthy(maintainerHtml) {
      footerData := footerData + [ToStr(maintainerHtml)];
    }
  }

  /** The footer line: its entries joined by " • ". */
  function FooterText(footer: seq<string>): (r: string)
    ensures footer == [] ==> r == ""
    ensures |footer| == 1 ==> r == footer[0]
    ensures |footer| == 2 ==> r == footer[0] + " • " + footer[1]
  {
    if |footer| == 2 then
      assert footer[1..] == [footer[1]];
      assert Strings.Join(footer[1..], " • ") == footer[1];
      Strings.Join(footer, " • ")
    else Strings.Join(footer, " • ")
  }
}
