/**
 * The constants of the store's configuration object (config.js): the fallback
 * WhatsApp number, the remote action names and the user-facing messages, together
 * with the cache's default lifetime, which is the default argument of `Cache.set`
 * (config.js:237) rather than a constant of `CONFIG`.
 */
module Config {

  /** The number used for purchases when the settings hold none. */
  const DefaultWhatsApp: string := "6281234567890"

  /** Default lifetime of a cache entry, in milliseconds (five minutes). */
  const DefaultCacheExpiry: int := 300000

  /** The remote operations, each selected by its `action` discriminator. */
  datatype Endpoint =
    | GetProducts
    | AddProduct
    | UpdateProduct
    | DeleteProduct
    | GetSettings
    | UpdateSettings
    | AddOrder
    | AuthenticateAdmin

  /** The `action` name of each operation (`CONFIG.ENDPOINTS`). */
  function Action(e: Endpoint): (r: string)
    ensures r != ""
    ensures 'a' <= r[0] <= 'z'
  {
    match e
    case GetProducts => "getProducts"
    case AddProduct => "addProduct"
    case UpdateProduct => "updateProduct"
    case DeleteProduct => "deleteProduct"
    case GetSettings => "getSettings"
    case UpdateSettings => "updateSettings"
    case AddOrder => "addOrder"
    case AuthenticateAdmin => "authenticateAdmin"
  }

  /** The eight action names are pairwise distinct. */
  lemma ActionInjective(e1: Endpoint, e2: Endpoint)
    ensures Action(e1) == Action(e2) ==> e1 == e2
  {
  }

  // User-facing messages.
  const MsgProductAdded: string := "Produk berhasil ditambahkan!"
  const MsgProductUpdated: string := "Produk berhasil diperbarui!"
  const MsgProductDeleted: string := "Produk berhasil dihapus!"
  const MsgInvalidPassword: string := "Password salah!"
}
