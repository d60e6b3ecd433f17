/**
 * The service menu of the ticket panel: the choice of a service (bot.js
 * lines 338-376) and the buy/sell choice that follows it (lines 379-386).
 */
module Panel {
  import opened Text

  const LimitedsEmoji: string := "<:lim:1429231822646018149>"
  const DahoodEmoji: string := "<:dh:1429232221683712070>"
  const ServicesEmoji: string := "<:discord:1429232874338652260>"

  /** A ticket `createTicket` is asked for: its type and its description. */
  datatype TicketRequest = TicketRequest(kind: string, description: string)

  /** What the bot does after the service choice. */
  datatype PanelAction =
    | OfferBuySell(menuId: string, title: string, options: seq<string>)   // a second menu
    | OpenTicket(request: TicketRequest)                                  // `createTicket`
    | NoAction


  function ServiceName(selected: string): string {
    if selected == "limiteds" then "Limiteds" else "Dahood Skins"
  }

  /** The `ticket_type` menu: limiteds and dahood ask buy or sell, services opens a ticket at once. */
  function SelectService(selected: string): PanelAction {
    if selected == "limiteds" || selected == "dahood" then
      var emoji := if selected == "limiteds" then LimitedsEmoji else DahoodEmoji;
      OfferBuySell("buy_sell_" + selected, emoji + " " + ServiceName(selected), ["buy_" + selected, "sell_" + selected])
    else if selected == "services" then
      OpenTicket(TicketRequest("services", ServicesEmoji + " Buying Services"))
    else NoAction
  }

  /** Exactly the three services of the panel lead anywhere; only `services` opens a ticket at once. */
  lemma ServiceDispatch(selected: string)
    ensures SelectService(selected) != NoAction <==> selected in {"limiteds", "dahood", "services"}
    ensures SelectService(selected).OpenTicket? <==> selected == "services"
    ensures selected == "services" ==> SelectService(selected) == OpenTicket(TicketRequest("services", ServicesEmoji + " Buying Services"))
  {
  }

  /**
   * `const [action, type] = value.split('_')`: the ticket type is
   * `action-type` and the description names the direction and the
   * service; a missing part prints as "undefined".
   */
  function BuySell(value: string): TicketRequest {
    var parts := Split(value, '_');
    var action := parts[0];
    var service := if |parts| >= 2 then parts[1] else "undefined";
    TicketRequest(action + "-" + service,
                  (if action == "buy" then "Buying" else "Selling") + " " + ServiceName(service))
  }

  /** `action_service` reads as the ticket type `action-service`. */
  lemma BuySellParts(action: string, service: string)
    requires '_' !in action && '_' !in service
    ensures BuySell(action + "_" + service) ==
            TicketRequest(action + "-" + service,
                          (if action == "buy" then "Buying" else "Selling") + " " + ServiceName(service))
  {
    assert Join([action, service], '_') == action + "_" + service by {
      assert [action, service][1..] == [service];
    }
    SplitJoin([action, service], '_');
  }

  /** The menu offered for a service reaches the `buy_sell_` handler and has the two options `buy_` and `sell_`. */
  lemma BuySellMenuShape(selected: string)
    requires selected == "limiteds" || selected == "dahood"
    ensures var a := SelectService(selected);
            a.OfferBuySell? && StartsWith(a.menuId, "buy_sell_") &&
            a.options == ["buy" + "_" + selected, "sell" + "_" + selected] &&
            a.title[|a.title| - |ServiceName(selected)|..] == ServiceName(selected)
  {
    var a := SelectService(selected);
    assert a.menuId[..|"buy_sell_"|] == "buy_sell_";
    assert "buy_" + selected == "buy" + "_" + selected;
    assert "sell_" + selected == "sell" + "_" + selected;
  }

  /**
   * The buy/sell menu and its handler agree: its two options open
   * `buy-<service>` and `sell-<service>` tickets named after the service.
   */
  lemma BuySellMenuAgrees(selected: string)
    requires selected == "limiteds" || selected == "dahood"
    ensures var a := SelectService(selected);
            a.OfferBuySell? && |a.options| == 2 &&
            BuySell(a.options[0]) == TicketRequest("buy" + "-" + selected, "Buying" + " " + ServiceName(selected)) &&
            BuySell(a.options[1]) == TicketRequest("sell" + "-" + selected, "Selling" + " " + ServiceName(selected))
  {
    BuySellMenuShape(selected);
    assert '_' !in selected;
    BuySellParts("buy", selected);
    BuySellParts("sell", selected);
  }
}
