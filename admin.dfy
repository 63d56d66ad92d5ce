/**
 * The state logic of the store's admin panel (admin.js, class `AdminPanel`),
 * without its rendering. The panel keeps three fields: whether the admin has
 * logged in, the products by category and the store settings, all copies of
 * what the remote spreadsheet API holds.
 *
 * Every remote call is an input: a handler receives the reply (or replies) the
 * API gives, and returns the requests it sends, in order, and the notices it
 * shows the user, in order. A handler that reloads after a successful write
 * receives the reply to that reload as a further parameter, used only when the
 * reload happens.
 */
module Admin {
  import opened Wrappers
  import Config

  datatype Product = Product(id: string, name: string, price: int, description: string)

  /** One category of the product listing with its products, in the order the API lists them. */
  datatype Category = Category(name: string, products: seq<Product>)

  /** The products by category: the entries of the API's category-to-products object, in iteration order. */
  type Catalog = seq<Category>

  /** Setting name to value. */
  type Settings = map<string, string>

  /** A reply of the remote API; `message` is `None` when the reply carries none. */
  datatype Response<D> = Response(success: bool, data: D, message: Option<string>)

  /** The reply to a write, whose data the panel never reads. */
  type Ack = Response<()>

  /** The body of a request. */
  datatype Payload =
    | NoBody
    | Credentials(password: string)
    | ProductFields(id: Option<string>, category: string, name: string, price: int, description: string)
    | ProductKey(key: string)
    | SettingChange(setting: string, value: string)

  /** A call to the remote API: the operation and its body. */
  datatype Request = Request(endpoint: Config.Endpoint, payload: Payload)

  /** A transient message shown to the user. */
  datatype Notice = Success(text: string) | Error(text: string)

  /** The product form as the panel fills it in; `mode` and `productId` are what the form remembers about how it was opened. */
  datatype ProductForm = ProductForm(mode: string, productId: string, category: string, name: string, price: int, description: string)

  /** A modal dialog the panel opens. */
  datatype Modal = LoginModal | AdminModal | ProductModal(form: ProductForm)

  /** A product found in the listing, with the category it was found in. */
  datatype Hit = Hit(product: Product, category: string)

  /** `message || fallback`: the reply's message unless it is missing or empty. */
  function MessageOr(message: Option<string>, fallback: string): (r: string)
    ensures message.Some? && message.value != "" ==> r == message.value
    ensures message.None? || message.value == "" ==> r == fallback
    ensures fallback != "" ==> r != ""
  {
    if message.Some? && message.value != "" then message.value else fallback
  }

  /** The reply's message as a template literal prints it: a missing one prints as `undefined`. */
  function Interpolated(message: Option<string>): (r: string)
    ensures message.Some? ==> r == message.value
    ensures message.None? ==> r == "undefined"
  {
    if message.Some? then message.value else "undefined"
  }

  /** The notices a load shows: none when it succeeds, the reply's message (or `fallback`) when it fails. */
  function LoadNotices<D>(reply: Response<D>, fallback: string): seq<Notice>
  {
    if reply.success then [] else [Error(MessageOr(reply.message, fallback))]
  }

  const ReadProducts: Request := Request(Config.GetProducts, NoBody)
  const ReadSettings: Request := Request(Config.GetSettings, NoBody)

  const ProductsLoadFailed: string := "Gagal memuat produk"
  const SettingsLoadFailed: string := "Gagal memuat pengaturan"
  const ProductSaveFailed: string := "Gagal menyimpan produk"
  const ProductDeleteFailed: string := "Gagal menghapus produk"
  const SettingsSaved: string := "Pengaturan berhasil disimpan!"
  const LoginSucceeded: string := "Login berhasil!"
  const LogoutSucceeded: string := "Logout berhasil!"

  /** The settings key holding the store's WhatsApp number. */
  const WhatsAppKey: string := "WhatsApp Number"

  // ---------------------------------------------------------------------------
  // Authentication

  /** What changes the login flag: a reply to a login attempt, or a logout. */
  datatype AuthEvent = LoginReply(accepted: bool) | LogoutEvent

  /** The login flag after one event: a login can only set it, a logout always clears it. */
  function AuthStep(authenticated: bool, e: AuthEvent): (r: bool)
    ensures e.LogoutEvent? ==> !r
    ensures r <==> e.LoginReply? && (authenticated || e.accepted)
  {
    match e
    case LoginReply(accepted) => authenticated || accepted
    case LogoutEvent => false
  }

  /** The login flag after a sequence of events, starting from the constructor's `false`. */
  function AuthAfter(events: seq<AuthEvent>): (r: bool)
    ensures r ==> events != [] && events[|events| - 1].LoginReply?
  {
    if events == [] then false
    else AuthStep(AuthAfter(events[..|events| - 1]), events[|events| - 1])
  }

  /**
   * The admin is authenticated exactly when some login was accepted and no
   * logout came after it.
   */
  lemma {:induction false} AuthenticatedIffAcceptedSinceLogout(events: seq<AuthEvent>)
    ensures AuthAfter(events) <==>
      exists i :: 0 <= i < |events| && events[i] == LoginReply(true)
        && forall j :: i < j < |events| ==> events[j] != LogoutEvent
  {
    if events != [] {
      var n := |events| - 1;
      var earlier := events[..n];
      AuthenticatedIffAcceptedSinceLogout(earlier);
      assert forall k :: 0 <= k < n ==> earlier[k] == events[k];
      match events[n]
      case LogoutEvent =>
        assert !AuthAfter(events);
      case LoginReply(accepted) =>
        if accepted {
          assert events[n] == LoginReply(true);
        } else if AuthAfter(earlier) {
          var i :| 0 <= i < n && earlier[i] == LoginReply(true)
            && forall j :: i < j < n ==> earlier[j] != LogoutEvent;
          assert events[i] == LoginReply(true);
        } else {
          forall i | 0 <= i < |events| && events[i] == LoginReply(true)
            ensures exists j :: i < j < |events| && events[j] == LogoutEvent
          {
            assert i < n;
            assert earlier[i] == LoginReply(true);
            var j :| i < j < n && earlier[j] == LogoutEvent;
            assert events[j] == LogoutEvent;
          }
        }
    }
  }

  // ---------------------------------------------------------------------------
  // Looking up a product for editing

  /** `products.find(p => p.id === id)`: the first product with that id. */
  function FindProduct(products: seq<Product>, id: string): (r: Option<Product>)
    ensures r.None? <==> forall i :: 0 <= i < |products| ==> products[i].id != id
    ensures r.Some? ==> r.value.id == id
    ensures r.Some? ==> exists i :: 0 <= i < |products| && products[i] == r.value
                                    && forall j :: 0 <= j < i ==> products[j].id != id
  {
    if products == [] then None
    else if products[0].id == id then Some(products[0])
    else
      var rest := FindProduct(products[1..], id);
      assert forall i :: 0 < i < |products| ==> products[i] == products[1..][i - 1];
      rest
  }

  /**
   * The product `editProduct` settles on: within a category the first match,
   * across categories the match in the last category that has one, since every
   * category that matches overwrites the previous choice.
   */
  function Locate(catalog: Catalog, id: string): (r: Option<Hit>)
    ensures r.None? <==> forall k :: 0 <= k < |catalog| ==> FindProduct(catalog[k].products, id).None?
    ensures r.Some? ==> r.value.product.id == id
  {
    if catalog == [] then None
    else
      var n := |catalog| - 1;
      match FindProduct(catalog[n].products, id)
      case Some(p) => Some(Hit(p, catalog[n].name))
      case None =>
        var earlier := Locate(catalog[..n], id);
        assert forall k :: 0 <= k < n ==> catalog[..n][k] == catalog[k];
        earlier
  }

  /**
   * Where `Locate`'s answer comes from: the first match inside category `k`,
   * where no category after `k` has a match.
   */
  lemma {:induction false} LocateIsLastMatch(catalog: Catalog, id: string) returns (k: nat)
    requires Locate(catalog, id).Some?
    ensures k < |catalog| && catalog[k].name == Locate(catalog, id).value.category
    ensures FindProduct(catalog[k].products, id) == Some(Locate(catalog, id).value.product)
    ensures forall j :: k < j < |catalog| ==> FindProduct(catalog[j].products, id).None?
  {
    var n := |catalog| - 1;
    if FindProduct(catalog[n].products, id).Some? {
      k := n;
    } else {
      var earlier := catalog[..n];
      k := LocateIsLastMatch(earlier, id);
      assert earlier[k] == catalog[k];
      forall j | k < j < |catalog|
        ensures FindProduct(catalog[j].products, id).None?
      {
        if j < n {
          assert earlier[j] == catalog[j];
        }
      }
    }
  }

  /** The product form filled in for editing a found product. */
  function EditForm(hit: Hit): (r: ProductForm)
    ensures r.mode == "edit" && r.productId == hit.product.id && r.category == hit.category
    ensures r.name == hit.product.name && r.price == hit.product.price && r.description == hit.product.description
  {
    ProductForm("edit", hit.product.id, hit.category, hit.product.name, hit.product.price, hit.product.description)
  }

  // ---------------------------------------------------------------------------
  // Requests built from forms

  /**
   * The request a product form submits: an update carrying the form's product
   * id when the form is in edit mode, otherwise an addition without any id.
   */
  function ProductRequest(form: ProductForm): (r: Request)
    ensures r.payload.ProductFields?
    ensures r.endpoint == Config.UpdateProduct <==> form.mode == "edit"
    ensures r.endpoint == Config.AddProduct <==> form.mode != "edit"
    ensures r.payload.id.Some? <==> r.endpoint == Config.UpdateProduct
    ensures r.payload.id.Some? ==> r.payload.id.value == form.productId
    ensures r.payload.category == form.category && r.payload.name == form.name
    ensures r.payload.price == form.price && r.payload.description == form.description
  {
    var id := if form.mode == "edit" then Some(form.productId) else None;
    var endpoint := if form.mode == "edit" then Config.UpdateProduct else Config.AddProduct;
    Request(endpoint, ProductFields(id, form.category, form.name, form.price, form.description))
  }

  /** The write for one entry of the settings form. */
  function SettingWrite(entry: (string, string)): Request
  {
    Request(Config.UpdateSettings, SettingChange(entry.0, entry.1))
  }

  /** The writes for a run of settings-form entries, one per entry, in order. */
  function SettingWrites(entries: seq<(string, string)>): (r: seq<Request>)
    ensures |r| == |entries|
    ensures forall i :: 0 <= i < |entries| ==> r[i] == SettingWrite(entries[i])
  {
    if entries == [] then []
    else SettingWrites(entries[..|entries| - 1]) + [SettingWrite(entries[|entries| - 1])]
  }

  /** The position of the first failed reply, if any. */
  function FirstFailure(replies: seq<Ack>): (r: Option<nat>)
    ensures r.None? <==> forall i :: 0 <= i < |replies| ==> replies[i].success
    ensures r.Some? ==> r.value < |replies| && !replies[r.value].success
    ensures r.Some? ==> forall i :: 0 <= i < r.value ==> replies[i].success
  {
    if replies == [] then None
    else if !replies[0].success then Some(0)
    else
      match FirstFailure(replies[1..])
      case None => None
      case Some(k) => Some(k + 1)
  }

  /** The notice for a settings write that failed. */
  function SettingFailure(setting: string, reply: Ack): (r: Notice)
    ensures r.Error?
    ensures |r.text| > |"Gagal update " + setting|
    ensures r.text[..|"Gagal update " + setting|] == "Gagal update " + setting
    ensures r.text[|"Gagal update " + setting|..] == ": " + Interpolated(reply.message)
  {
    Error("Gagal update " + setting + ": " + Interpolated(reply.message))
  }

  /** `currentSettings['WhatsApp Number'] || CONFIG.DEFAULT_WHATSAPP`: the number a purchase goes to. */
  function WhatsAppNumber(settings: Settings): (r: string)
    ensures r != ""
    ensures WhatsAppKey in settings && settings[WhatsAppKey] != "" ==> r == settings[WhatsAppKey]
    ensures WhatsAppKey !in settings || settings[WhatsAppKey] == "" ==> r == Config.DefaultWhatsApp
  {
    if WhatsAppKey in settings && settings[WhatsAppKey] != "" then settings[WhatsAppKey]
    else Config.DefaultWhatsApp
  }

  // ---------------------------------------------------------------------------
  // The panel

  class AdminPanel {
    var isAuthenticated: bool
    var currentProducts: Catalog
    var currentSettings: Settings

    /** A fresh panel: not logged in, no products, no settings (the initial loads are `LoadInitialData`). */
    constructor ()
      ensures !isAuthenticated && currentProducts == [] && currentSettings == map[]
    {
      isAuthenticated := false;
      currentProducts := [];
      currentSettings := map[];
    }

    /** `loadProducts`: replace the products with the reply's data only when the reply succeeds. */
    method LoadProducts(reply: Response<Catalog>) returns (sent: seq<Request>, notices: seq<Notice>)
      modifies this
      ensures sent == [ReadProducts]
      ensures currentProducts == if reply.success then reply.data else old(currentProducts)
      ensures notices == LoadNotices(reply, ProductsLoadFailed)
      ensures isAuthenticated == old(isAuthenticated) && currentSettings == old(currentSettings)
    {
      sent := [ReadProducts];
      if reply.success {
        currentProducts := reply.data;
        notices := [];
      } else {
        notices := [Error(MessageOr(reply.message, ProductsLoadFailed))];
      }
    }

    /** `loadSettings`: replace the settings with the reply's data only when the reply succeeds. */
    method LoadSettings(reply: Response<Settings>) returns (sent: seq<Request>, notices: seq<Notice>)
      modifies this
      ensures sent == [ReadSettings]
      ensures currentSettings == if reply.success then reply.data else old(currentSettings)
      ensures notices == LoadNotices(reply, SettingsLoadFailed)
      ensures isAuthenticated == old(isAuthenticated) && currentProducts == old(currentProducts)
    {
      sent := [ReadSettings];
      if reply.success {
        currentSettings := reply.data;
        notices := [];
      } else {
        notices := [Error(MessageOr(reply.message, SettingsLoadFailed))];
      }
    }

    /** `loadInitialData`: load the products, then the settings. */
    method LoadInitialData(products: Response<Catalog>, settings: Response<Settings>)
      returns (sent: seq<Request>, notices: seq<Notice>)
      modifies this
      ensures sent == [ReadProducts, ReadSettings]
      ensures currentProducts == if products.success then products.data else old(currentProducts)
      ensures currentSettings == if settings.success then settings.data else old(currentSettings)
      ensures notices == LoadNotices(products, ProductsLoadFailed) + LoadNotices(settings, SettingsLoadFailed)
      ensures isAuthenticated == old(isAuthenticated)
    {
      var sentProducts, productNotices := LoadProducts(products);
      var sentSettings, settingNotices := LoadSettings(settings);
      sent := sentProducts + sentSettings;
      notices := productNotices + settingNotices;
    }

    /** `openAdminPanel`: the login dialog when not logged in, the admin dialog otherwise. */
    method OpenAdminPanel() returns (shown: Modal)
      ensures shown == LoginModal <==> !isAuthenticated
      ensures shown == AdminModal <==> isAuthenticated
    {
      if !isAuthenticated {
        shown := LoginModal;
      } else {
        shown := AdminModal;
      }
    }

    /**
     * `handleLogin`: send the password; only an accepted login sets the flag
     * (and opens the admin dialog), a rejected one leaves every field as it was.
     */
    method HandleLogin(password: string, reply: Ack)
      returns (sent: seq<Request>, notices: seq<Notice>, shown: Option<Modal>)
      modifies this
      ensures sent == [Request(Config.AuthenticateAdmin, Credentials(password))]
      ensures isAuthenticated == AuthStep(old(isAuthenticated), LoginReply(reply.success))
      ensures shown == if reply.success then Some(AdminModal) else None
      ensures notices == if reply.success then [Success(LoginSucceeded)]
                         else [Error(MessageOr(reply.message, Config.MsgInvalidPassword))]
      ensures currentProducts == old(currentProducts) && currentSettings == old(currentSettings)
    {
      sent := [Request(Config.AuthenticateAdmin, Credentials(password))];
      if reply.success {
        isAuthenticated := true;
        shown := Some(AdminModal);
        notices := [Success(LoginSucceeded)];
      } else {
        shown := None;
        notices := [Error(MessageOr(reply.message, Config.MsgInvalidPassword))];
      }
    }

    /** `logout`: clear the flag whatever it was; products and settings stay. */
    method Logout() returns (notices: seq<Notice>)
      modifies this
      ensures isAuthenticated == AuthStep(old(isAuthenticated), LogoutEvent)
      ensures notices == [Success(LogoutSucceeded)]
      ensures currentProducts == old(currentProducts) && currentSettings == old(currentSettings)
    {
      isAuthenticated := false;
      notices := [Success(LogoutSucceeded)];
    }

    /**
     * `editProduct`: search every category for the id and open the product
     * dialog in edit mode on the product found; open nothing when no category
     * has it.
     */
    method EditProduct(productId: string) returns (shown: Option<Modal>)
      ensures shown.None? <==> forall k :: 0 <= k < |currentProducts| ==> FindProduct(currentProducts[k].products, productId).None?
      ensures shown.Some? ==> Locate(currentProducts, productId).Some?
                              && shown.value == ProductModal(EditForm(Locate(currentProducts, productId).value))
      ensures shown.Some? ==> shown.value.form.mode == "edit" && shown.value.form.productId == productId
    {
      var product: Option<Product> := None;
      var productCategory := "";
      var i := 0;
      while i < |currentProducts|
        invariant 0 <= i <= |currentProducts|
        invariant Locate(currentProducts[..i], productId) ==
                  if product.Some? then Some(Hit(product.value, productCategory)) else None
      {
        assert currentProducts[..i + 1][..i] == currentProducts[..i];
        var found := FindProduct(currentProducts[i].products, productId);
        if found.Some? {
          product := found;
          productCategory := currentProducts[i].name;
        }
        i := i + 1;
      }
      assert currentProducts[..i] == currentProducts;
      if product.Some? {
        shown := Some(ProductModal(EditForm(Hit(product.value, productCategory))));
      } else {
        shown := None;
      }
    }

    /**
     * `handleProductSubmit`: send the form as an update (edit mode) or an
     * addition (any other mode); reload the products only when the write succeeds.
     */
    method HandleProductSubmit(form: ProductForm, reply: Ack, reload: Response<Catalog>)
      returns (sent: seq<Request>, notices: seq<Notice>)
      modifies this
      ensures sent == [ProductRequest(form)] + if reply.success then [ReadProducts] else []
      ensures currentProducts == if reply.success && reload.success then reload.data else old(currentProducts)
      ensures notices == if reply.success
                         then [Success(if form.mode == "edit" then Config.MsgProductUpdated else Config.MsgProductAdded)]
                              + LoadNotices(reload, ProductsLoadFailed)
                         else [Error(MessageOr(reply.message, ProductSaveFailed))]
      ensures isAuthenticated == old(isAuthenticated) && currentSettings == old(currentSettings)
    {
      var request := ProductRequest(form);
      sent := [request];
      if reply.success {
        var saved := if form.mode == "edit" then Config.MsgProductUpdated else Config.MsgProductAdded;
        var reloadSent, reloadNotices := LoadProducts(reload);
        sent := sent + reloadSent;
        notices := [Success(saved)] + reloadNotices;
      } else {
        notices := [Error(MessageOr(reply.message, ProductSaveFailed))];
      }
    }

    /**
     * `deleteProduct`: nothing at all unless the user confirms; then send the
     * deletion and reload the products only when it succeeds.
     */
    method DeleteProduct(productId: string, confirmed: bool, reply: Ack, reload: Response<Catalog>)
      returns (sent: seq<Request>, notices: seq<Notice>)
      modifies this
      ensures !confirmed ==> sent == [] && notices == [] && currentProducts == old(currentProducts)
      ensures confirmed ==> sent == [Request(Config.DeleteProduct, ProductKey(productId))]
                                    + if reply.success then [ReadProducts] else []
      ensures confirmed ==> currentProducts == if reply.success && reload.success then reload.data else old(currentProducts)
      ensures confirmed ==> notices == if reply.success
                                       then [Success(Config.MsgProductDeleted)] + LoadNotices(reload, ProductsLoadFailed)
                                       else [Error(MessageOr(reply.message, ProductDeleteFailed))]
      ensures isAuthenticated == old(isAuthenticated) && currentSettings == old(currentSettings)
    {
      sent, notices := [], [];
      if !confirmed {
        return;
      }
      sent := [Request(Config.DeleteProduct, ProductKey(productId))];
      if reply.success {
        var reloadSent, reloadNotices := LoadProducts(reload);
        sent := sent + reloadSent;
        notices := [Success(Config.MsgProductDeleted)] + reloadNotices;
      } else {
        notices := [Error(MessageOr(reply.message, ProductDeleteFailed))];
      }
    }

    /**
     * `handleSettingsSubmit`: one write per form entry, in form order, each
     * waiting for the previous reply; the first failed reply stops the run
     * (later entries are never sent) and is reported by setting name. Only a
     * run in which every write succeeded reports success and reloads the settings.
     * `replies[i]` is the API's reply to the write of `entries[i]`.
     */
    method HandleSettingsSubmit(entries: seq<(string, string)>, replies: seq<Ack>, reload: Response<Settings>)
      returns (sent: seq<Request>, notices: seq<Notice>)
      requires |replies| == |entries|
      modifies this
      ensures var stop := FirstFailure(replies);
        && (stop.Some? ==> sent == SettingWrites(entries[..stop.value + 1])
                           && notices == [SettingFailure(entries[stop.value].0, replies[stop.value])]
                           && currentSettings == old(currentSettings))
        && (stop.None? ==> sent == SettingWrites(entries) + [ReadSettings]
                           && notices == [Success(SettingsSaved)] + LoadNotices(reload, SettingsLoadFailed)
                           && currentSettings == if reload.success then reload.data else old(currentSettings))
      ensures isAuthenticated == old(isAuthenticated) && currentProducts == old(currentProducts)
    {
      sent := [];
      var i := 0;
      while i < |entries|
        invariant 0 <= i <= |entries|
        invariant sent == SettingWrites(entries[..i])
        invariant forall k :: 0 <= k < i ==> replies[k].success
      {
        assert entries[..i + 1][..i] == entries[..i];
        sent := sent + [SettingWrite(entries[i])];
        if !replies[i].success {
          notices := [SettingFailure(entries[i].0, replies[i])];
          return;
        }
        i := i + 1;
      }
      assert entries[..i] == entries;
      var reloadSent, reloadNotices := LoadSettings(reload);
      sent := sent + reloadSent;
      notices := [Success(SettingsSaved)] + reloadNotices;
    }

    /** `buyProduct`: the WhatsApp number the purchase message is addressed to. */
    method BuyProduct(productName: string, price: int) returns (number: string)
      ensures number == WhatsAppNumber(currentSettings)
      ensures number != ""
    {
      number := WhatsAppNumber(currentSettings);
    }
  }

  /**
   * A client's view of the settings form: when the write of the WhatsApp
   * number fails, the store name is never sent and the failure names the
   * WhatsApp number.
   */
  method SettingsStopAtFirstFailure(panel: AdminPanel, first: Ack, second: Ack, reload: Response<Settings>)
    returns (sent: seq<Request>, notices: seq<Notice>)
    requires !first.success
    modifies panel
    ensures sent == [Request(Config.UpdateSettings, SettingChange(WhatsAppKey, "628123"))]
    ensures notices == [Error("Gagal update " + WhatsAppKey + ": " + Interpolated(first.message))]
    ensures panel.currentSettings == old(panel.currentSettings)
  {
    var entries := [(WhatsAppKey, "628123"), ("Store Name", "Foo")];
    sent, notices := panel.HandleSettingsSubmit(entries, [first, second], reload);
    assert FirstFailure([first, second]) == Some(0);
    assert entries[..1] == [entries[0]];
  }
}
