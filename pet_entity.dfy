// The Pet entity (src/pets/entities/pet.entity.ts): a row of the pet table
// whose setters change its fields in place.
module PetEntity {

  type CityId = nat
  type AttributeId = nat

  /** Every field of a pet that its methods read or write, as one value. */
  datatype PetRecord = PetRecord(
    name: string,
    specie: string,
    sex: string,
    age: int,
    city: CityId,
    attributes: seq<AttributeId>,
    description: string,
    urlImg: string,
    available: bool,
    interested: int)

  /** The column default of `available`. */
  const DefaultAvailable: bool := true
  /** The column default of `interested`. */
  const DefaultInterested: int := 0

  class Pet {
    var name: string
    var specie: string
    var sex: string
    var age: int
    var city: CityId
    var attributes: seq<AttributeId>
    var description: string
    var urlImg: string
    var available: bool
    var interested: int

    function Record(): PetRecord
      reads this
    {
      PetRecord(name, specie, sex, age, city, attributes, description, urlImg, available, interested)
    }

    /** Stores the eight given fields; `available` and `interested` take the
        values their columns default to. */
    constructor (name: string, specie: string, sex: string, age: int, city: CityId,
                 attributes: seq<AttributeId>, description: string, urlImg: string)
      ensures GetName() == name && GetSpecie() == specie && GetSex() == sex && GetAge() == age
      ensures GetDescription() == description && GetUrlImg() == urlImg
      ensures GetInterested() == DefaultInterested
      ensures Record() == PetRecord(name, specie, sex, age, city, attributes, description, urlImg,
                                    DefaultAvailable, DefaultInterested)
    {
      this.name := name;
      this.specie := specie;
      this.sex := sex;
      this.age := age;
      this.city := city;
      this.attributes := attributes;
      this.description := description;
      this.urlImg := urlImg;
      this.available := DefaultAvailable;
      this.interested := DefaultInterested;
    }

    function GetName(): string reads this { name }
    function GetAge(): int reads this { age }
    function GetSpecie(): string reads this { specie }
    function GetSex(): string reads this { sex }
    function GetDescription(): string reads this { description }
    function GetUrlImg(): string reads this { urlImg }
    function GetInterested(): int reads this { interested }

    method SetAge(newAge: int)
      modifies this
      ensures GetAge() == newAge
      ensures Record() == old(Record()).(age := newAge)
    {
      age := newAge;
    }

    method SetDescription(newDescription: string)
      modifies this
      ensures GetDescription() == newDescription
      ensures Record() == old(Record()).(description := newDescription)
    {
      description := newDescription;
    }

    /** One more person asked for this pet. */
    method SetInterested()
      modifies this
      ensures GetInterested() == old(GetInterested()) + 1
      ensures Record() == old(Record()).(interested := old(interested) + 1)
    {
      interested := interested + 1;
    }

    method SetUrlImg(newUrlImg: string)
      modifies this
      ensures GetUrlImg() == newUrlImg
      ensures Record() == old(Record()).(urlImg := newUrlImg)
    {
      urlImg := newUrlImg;
    }

    /** The source evaluates `!this.available` and discards the value, so the
        pet is left exactly as it was, `available` included. */
    method SetAvailable()
      modifies this
      ensures Record() == old(Record())
    {
      var discarded := !available;
    }
  }
}
