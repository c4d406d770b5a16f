/** The shared constants of lib/constants.ts and its `imageUrl` helper. */
module Constants {
  import opened Wrappers
  import opened Text
  import opened Types

  /** The defaults used when the environment does not override them. */
  const ApiBase: string := "http://192.168.1.5:5000/api"
  const BackendOrigin: string := "http://192.168.1.5:5000"
  const ServerApiBase: string := "http://192.168.1.5:5000/api"

  const Categories: seq<MenuCategory> := [Tea, Coffee, Cigarette, Snacks]

  /** Every category is listed exactly once. */
  lemma CategoriesComplete(c: MenuCategory)
    ensures c in Categories
    ensures multiset(Categories)[c] == 1
  {
    assert Categories == [Tea] + [Coffee] + [Cigarette] + [Snacks];
  }

  const CategoryIcons: map<string, string> := map[
    "Tea" := "\U{2615}",
    "Coffee" := "\U{2615}",
    "Cigarette" := "\U{1F6AC}",
    "Snacks" := "\U{1F37D}\U{FE0F}"]

  const StatusColors: map<string, string> := map[
    "pending" := "bg-orange-100 text-orange-700 border-orange-200",
    "preparing" := "bg-blue-100 text-blue-700 border-blue-200",
    "ready" := "bg-green-100 text-green-700 border-green-200",
    "served" := "bg-gray-100 text-gray-600 border-gray-200",
    "cancelled" := "bg-red-100 text-red-700 border-red-200"]

  const StatusBg: map<string, string> := map[
    "pending" := "bg-orange-500",
    "preparing" := "bg-blue-500",
    "ready" := "bg-green-500",
    "served" := "bg-gray-400",
    "cancelled" := "bg-red-500"]

  const StatusText: map<string, string> := map[
    "pending" := "Waiting for the shop to accept your order",
    "preparing" := "Your order is being prepared",
    "ready" := "Your order is ready! Head to the counter",
    "served" := "Enjoy your meal!",
    "cancelled" := "Your order was cancelled"]

  /** The lookup tables are total: every status and every category has an entry. */
  lemma TablesTotal(s: OrderStatus, c: MenuCategory)
    ensures StatusName(s) in StatusColors && StatusName(s) in StatusBg && StatusName(s) in StatusText
    ensures CategoryName(c) in CategoryIcons
    ensures StatusColors.Keys == StatusBg.Keys == StatusText.Keys
  {
  }

  /**
   * `imageUrl(path)` against the backend origin `origin`: no URL for a missing
   * or empty path, an absolute `http...` path unchanged, otherwise the path
   * appended to the origin.
   */
  function ImageUrl(origin: string, path: Option<string>): (r: Option<string>)
    ensures r.Some? <==> path.Some? && path.value != ""
    ensures r.Some? && StartsWith(path.value, "http") ==> r.value == path.value
    ensures r.Some? && !StartsWith(path.value, "http") ==>
              r.value == origin + path.value && r.value[|origin|..] == path.value
  {
    if path.None? || path.value == "" then None
    else if StartsWith(path.value, "http") then path
    else Some(origin + path.value)
  }

  lemma BackendOriginIsHttp()
    ensures StartsWith(BackendOrigin, "http")
  {
  }

  /** With an `http...` origin every produced URL is absolute, so applying `imageUrl` again changes nothing. */
  lemma ImageUrlIdempotent(origin: string, path: Option<string>)
    requires StartsWith(origin, "http")
    ensures ImageUrl(origin, ImageUrl(origin, path)) == ImageUrl(origin, path)
  {
    var r := ImageUrl(origin, path);
    if r.Some? && !StartsWith(path.value, "http") {
      StartsWithAppend(origin, path.value, "http");
    }
  }
}
