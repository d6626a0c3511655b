/**
 * The database as one mutable object: engines that save records do so by assigning `db`.
 */
module Stores {
  import opened Records

  class Store {
    var db: Db

    constructor (initial: Db)
      ensures db == initial
    {
      db := initial;
    }
  }
}
