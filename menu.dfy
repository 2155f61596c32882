/**
 * The side menu of `Layout`: the five entries and the filter by the signed-in
 * user's profile. `userData?.perfil` is `None` when no profile is loaded.
 */
module Menu {
  import opened Common

  datatype ItemMenu = ItemMenu(path: string, rotulo: string, icone: string)

  const Dashboard: ItemMenu := ItemMenu("/", "Dashboard", "📊")
  const AgendaItem: ItemMenu := ItemMenu("/agenda", "Agenda", "📅")
  const PacientesItem: ItemMenu := ItemMenu("/pacientes", "Pacientes", "👥")
  const RelatoriosItem: ItemMenu := ItemMenu("/relatorios", "Relatórios", "📈")
  const ConfiguracoesItem: ItemMenu := ItemMenu("/configuracoes", "Configurações", "⚙️")

  const MenuItems: seq<ItemMenu> := [Dashboard, AgendaItem, PacientesItem, RelatoriosItem, ConfiguracoesItem]

  /** The paths a doctor or a receptionist may open. */
  const PathsRestritos: seq<string> := ["/", "/agenda", "/pacientes"]

  predicate Restrito(perfil: Option<string>) {
    perfil == Some("medico") || perfil == Some("recepcionista")
  }

  /** The test of the filter: restricted profiles see the listed paths, every other profile sees all. */
  function Visivel(perfil: Option<string>): ItemMenu -> bool {
    (item: ItemMenu) => !Restrito(perfil) || item.path in PathsRestritos
  }

  /** `filteredMenuItems`. */
  function FilteredMenuItems(perfil: Option<string>): seq<ItemMenu> {
    Filter(MenuItems, Visivel(perfil))
  }

  /** A doctor or a receptionist sees exactly Dashboard, Agenda and Pacientes, in that order. */
  lemma RestrictedProfilesSeeThree(perfil: Option<string>)
    requires Restrito(perfil)
    ensures FilteredMenuItems(perfil) == [Dashboard, AgendaItem, PacientesItem]
  {
    var v := Visivel(perfil);
    var head := [Dashboard, AgendaItem, PacientesItem];
    var tail := [RelatoriosItem, ConfiguracoesItem];
    assert Filter(head, v) == head by {
      assert v(Dashboard) && v(AgendaItem) && v(PacientesItem);
      FilterKeepsAll(head, v);
    }
    assert Filter(tail, v) == [] by {
      assert !v(RelatoriosItem) && !v(ConfiguracoesItem);
      FilterKeepsNone(tail, v);
    }
    assert MenuItems == head + tail;
    FilterAppend(head, tail, v);
  }

  /** Every other profile, an administrator or a missing one included, sees all five entries. */
  lemma OtherProfilesSeeAll(perfil: Option<string>)
    requires !Restrito(perfil)
    ensures FilteredMenuItems(perfil) == MenuItems
  {
    FilterKeepsAll(MenuItems, Visivel(perfil));
  }

  /** Whatever the profile, the menu shown is an order-preserving sublist of the full menu that keeps Dashboard. */
  lemma MenuIsSublist(perfil: Option<string>)
    ensures Subsequence(FilteredMenuItems(perfil), MenuItems)
    ensures Dashboard in FilteredMenuItems(perfil)
  {
    assert MenuItems[0] == Dashboard;
  }
}
