/** The buyer app's response envelope and page shape (src/types/api.ts). */
module ApiTypes {

  /** `{ code, message, data }` returned by every mock back-end function. */
  datatype ApiResponse<T> = ApiResponse(code: int, message: string, data: T)

  /** `{ list, total, page, size }` */
  datatype PageResult<T> = PageResult(list: seq<T>, total: nat, page: int, size: int)
}
