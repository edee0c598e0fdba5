/** What a route element of the React client renders: a placeholder while it waits, a
    `<Navigate to=… replace />` redirect, or the children it wraps. */
module Router {

  datatype Element = Placeholder | Navigate(to: string) | Children
}
