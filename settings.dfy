/** The four options the `/settings` REST route writes, and the route itself:
    permission first, then the rules JSON must parse, and only then are all
    four options written. */
module Settings {
  import opened Common

  /** `cpl_currency`, `cpl_program_page` (absent until first saved),
      `cpl_woo_enable` and `cpl_rules_json`. */
  datatype Options = Options(currency: string, programPage: Option<string>, wooEnable: bool, rulesJson: string)

  /** The options a first activation adds (`add_option` leaves an option
      that already exists as it is). */
  function ActivationOptions(): (o: Options)
    ensures o == Options("USD", None, false, "[]")
    ensures Truthy(o.currency) && !o.wooEnable && o.programPage.None?
  {
    Options("USD", None, false, "[]")
  }

  /** The route's parameters after `sanitize_text_field` / `wp_unslash`; an
      absent text parameter arrives as "". */
  datatype SettingsRequest = SettingsRequest(currency: string, programPage: string, wooEnable: Param, rulesJson: string)

  /** `$currency ?: 'USD'`: a falsy currency ("" or "0") is stored as USD. */
  function StoredCurrency(currency: string): (r: string)
    ensures Truthy(r)
    ensures Truthy(currency) ==> r == currency
    ensures !Truthy(currency) ==> r == "USD"
  {
    if Truthy(currency) then currency else "USD"
  }

  /** The `/settings` callback. `rulesJsonValid` is whether `json_decode`
      accepts `req.rulesJson`. */
  function SaveSettings(o: Options, canManage: bool, req: SettingsRequest, rulesJsonValid: bool): (r: (Options, Reply<string>))
    ensures r.1.Err? ==> r.0 == o
    ensures r.1.Ok? <==> canManage && rulesJsonValid
    ensures !canManage ==> r.1 == Err(403, "Permission denied.")
    ensures canManage && !rulesJsonValid ==> r.1 == Err(400, "Invalid rules JSON.")
    ensures r.1.Ok? ==> r.1 == Ok("Settings saved.")
    ensures r.1.Ok? ==>
      && r.0.currency == StoredCurrency(req.currency)
      && r.0.programPage == Some(req.programPage)
      && r.0.wooEnable == BoolCast(req.wooEnable)
      && r.0.rulesJson == req.rulesJson
  {
    if !canManage then (o, Err(403, "Permission denied."))
    else if !rulesJsonValid then (o, Err(400, "Invalid rules JSON."))
    else (Options(StoredCurrency(req.currency), Some(req.programPage), BoolCast(req.wooEnable), req.rulesJson),
          Ok("Settings saved."))
  }

  /** The stored currency is never empty: activation stores USD and every
      save keeps it truthy. */
  lemma CurrencyAlwaysSet(o: Options, canManage: bool, req: SettingsRequest, rulesJsonValid: bool)
    requires Truthy(o.currency)
    ensures Truthy(SaveSettings(o, canManage, req, rulesJsonValid).0.currency)
  {
  }

  /** Saving is all or nothing: either no option changes, or all four carry
      the request's values, whatever they were before. */
  lemma SaveAllOrNothing(o: Options, o': Options, canManage: bool, req: SettingsRequest, rulesJsonValid: bool)
    ensures var r := SaveSettings(o, canManage, req, rulesJsonValid);
      r.0 == o || r.0 == SaveSettings(o', canManage, req, rulesJsonValid).0
  {
  }

  /** The `(bool)` cast makes the text "false" switch the integration on. */
  lemma WooEnableTextFalse(o: Options, req: SettingsRequest)
    requires req.wooEnable == Text("false")
    ensures SaveSettings(o, true, req, true).0.wooEnable
  {
  }
}
