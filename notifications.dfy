/**
 * `NotificationProvider`: the list of on-screen notifications, extended by
 * `addNotification` and its four shorthands and shrunk by
 * `removeNotification`. The id, which the code draws from the clock and a
 * random number, is a parameter.
 */
module Notifications {
  import opened Common

  datatype Notificacao = Notificacao(tipo: string, titulo: string, mensagem: string, id: int)

  /** `notification => notification.id !== id`. */
  function Outra(id: int): Notificacao -> bool {
    (n: Notificacao) => n.id != id
  }

  /** `prev.filter(notification => notification.id !== id)`. */
  function Sem(l: seq<Notificacao>, id: int): seq<Notificacao> {
    Filter(l, Outra(id))
  }

  /** Removal leaves no entry with that id and keeps every other entry, in order. */
  lemma SemRemovesOnlyId(l: seq<Notificacao>, id: int)
    ensures Subsequence(Sem(l, id), l)
    ensures forall k :: 0 <= k < |Sem(l, id)| ==> Sem(l, id)[k].id != id
    ensures forall k :: 0 <= k < |l| && l[k].id != id ==> l[k] in Sem(l, id)
  {
  }

  /** Removing an id that no entry carries changes nothing. */
  lemma SemAbsentId(l: seq<Notificacao>, id: int)
    requires forall k :: 0 <= k < |l| ==> l[k].id != id
    ensures Sem(l, id) == l
  {
    FilterKeepsAll(l, Outra(id));
  }

  /** Adding a notification under a fresh id and then removing that id restores the list. */
  lemma AddThenRemove(l: seq<Notificacao>, n: Notificacao)
    requires forall k :: 0 <= k < |l| ==> l[k].id != n.id
    ensures Sem(l + [n], n.id) == l
  {
    FilterAppend(l, [n], Outra(n.id));
    SemAbsentId(l, n.id);
    assert Filter([n], Outra(n.id)) == [] by {
      FilterKeepsNone([n], Outra(n.id));
    }
  }

  /** Removing other ids leaves a notification in place. */
  lemma RemoveOtherKeeps(l: seq<Notificacao>, n: Notificacao, id: int)
    requires n in l && n.id != id
    ensures n in Sem(l, id)
  {
    var k :| 0 <= k < |l| && l[k] == n;
  }

  class NotificationProvider {
    var notifications: seq<Notificacao>

    constructor ()
      ensures notifications == []
    {
      notifications := [];
    }

    /** `addNotification`: append `{ ...notification, id }` at the end and return the id. */
    method AddNotification(tipo: string, titulo: string, mensagem: string, id: int) returns (r: int)
      modifies this
      ensures notifications == old(notifications) + [Notificacao(tipo, titulo, mensagem, id)]
      ensures r == id
    {
      notifications := notifications + [Notificacao(tipo, titulo, mensagem, id)];
      r := id;
    }

    /** `removeNotification`: drop every entry with that id. */
    method RemoveNotification(id: int)
      modifies this
      ensures notifications == Sem(old(notifications), id)
    {
      notifications := Sem(notifications, id);
    }

    /** `success(message, title = 'Sucesso')`. */
    method Success(mensagem: string, titulo: Option<string>, id: int) returns (r: int)
      modifies this
      ensures notifications == old(notifications) + [Notificacao("success", titulo.GetOr("Sucesso"), mensagem, id)]
      ensures r == id
    {
      r := AddNotification("success", titulo.GetOr("Sucesso"), mensagem, id);
    }

    /** `error(message, title = 'Erro')`. */
    method Error(mensagem: string, titulo: Option<string>, id: int) returns (r: int)
      modifies this
      ensures notifications == old(notifications) + [Notificacao("error", titulo.GetOr("Erro"), mensagem, id)]
      ensures r == id
    {
      r := AddNotification("error", titulo.GetOr("Erro"), mensagem, id);
    }

    /** `warning(message, title = 'Atenção')`. */
    method Warning(mensagem: string, titulo: Option<string>, id: int) returns (r: int)
      modifies this
      ensures notifications == old(notifications) + [Notificacao("warning", titulo.GetOr("Atenção"), mensagem, id)]
      ensures r == id
    {
      r := AddNotification("warning", titulo.GetOr("Atenção"), mensagem, id);
    }

    /** `info(message, title = 'Informação')`. */
    method Info(mensagem: string, titulo: Option<string>, id: int) returns (r: int)
      modifies this
      ensures notifications == old(notifications) + [Notificacao("info", titulo.GetOr("Informação"), mensagem, id)]
      ensures r == id
    {
      r := AddNotification("info", titulo.GetOr("Informação"), mensagem, id);
    }
  }
}
