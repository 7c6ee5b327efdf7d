/** The side menu and the rule that highlights the entry of the current path. */
module Sidebar {
  import opened Text

  datatype MenuItem = MenuItem(title: string, url: string)

  const AdminTitle := "Administraci\U{F3}n"

  const AdminPrefix := "/administracion/"

  /** The menu entries, in order. */
  const Items: seq<MenuItem> := [
    MenuItem(AdminTitle, "/administracion"),
    MenuItem("Pacientes", "/pacientes"),
    MenuItem("Estad\U{ED}sticas", "/estadisticas")
  ]

  /**
   * `isItemActive`: the administration entry covers the root, its own page and everything
   * under it; any other entry is active on its own url only.
   */
  predicate IsItemActive(item: MenuItem, pathname: string) {
    if item.title == AdminTitle then
      pathname == "/" || pathname == "/administracion" || StartsWith(pathname, AdminPrefix)
    else pathname == item.url
  }

  lemma AdminActiveIff(pathname: string)
    ensures IsItemActive(Items[0], pathname) <==>
              pathname == "/" || pathname == "/administracion" || StartsWith(pathname, "/administracion/")
  {
  }

  lemma OthersActiveIff(i: int, pathname: string)
    requires 1 <= i < |Items|
    ensures IsItemActive(Items[i], pathname) <==> pathname == Items[i].url
  {
    assert Items[i].title != AdminTitle by {
      assert Items[i].title[0] != AdminTitle[0];
    }
  }

  /** No path highlights two entries. */
  lemma AtMostOneActive(pathname: string, i: int, j: int)
    requires 0 <= i < |Items| && 0 <= j < |Items|
    requires IsItemActive(Items[i], pathname) && IsItemActive(Items[j], pathname)
    ensures i == j
  {
    OthersActiveIff(1, pathname);
    OthersActiveIff(2, pathname);
    if i != j {
      if i == 0 || j == 0 {
        var k := if i == 0 then j else i;
        AdminExcludes(pathname, Items[k].url);
      }
    }
  }

  /** The urls of the other entries are not administration paths. */
  lemma AdminExcludes(pathname: string, url: string)
    requires url == "/pacientes" || url == "/estadisticas"
    requires pathname == url
    ensures !(pathname == "/" || pathname == "/administracion" || StartsWith(pathname, AdminPrefix))
  {
    MismatchAt(pathname, AdminPrefix, 1);
    assert pathname[1] != "/administracion"[1];
  }

  /** A path that only shares the prefix does not highlight administration, and a sub-page of the patients does not highlight the patients. */
  lemma NearMisses()
    ensures !IsItemActive(Items[0], "/administracionX")
    ensures IsItemActive(Items[0], "/administracion/categorias")
    ensures IsItemActive(Items[0], "/")
    ensures !IsItemActive(Items[1], "/pacientes/123")
  {
    MismatchAt("/administracionX", AdminPrefix, 15);
    OthersActiveIff(1, "/pacientes/123");
    assert "/administracion/categorias"[..|AdminPrefix|] == AdminPrefix;
  }
}
