/** The seeder's static sample catalog: ten category names in insertion
    order, and for each name the five products authored for it. The table is
    reproduced verbatim; prices are written in units of 1/10000, so 599.99
    appears as 5999900. */
module Fixture {

  /** One authored product: title, price (scaled by 10000), stock count, description. */
  datatype Entry = Entry(title: string, price: int, stock: int, description: string)

  /** The categories the seeder creates, in the order it creates them. */
  const CategoryNames: seq<string> := [
    "Electronics",
    "Books",
    "Clothing",
    "Home & Kitchen",
    "Sports & Outdoors",
    "Toys & Games",
    "Beauty & Personal Care",
    "Automotive",
    "Grocery",
    "Garden & Tools"
  ]

  /** The products authored for a category name: five for each listed name,
      none for any other name. */
  function ProductsForCategory(name: string): (r: seq<Entry>)
    ensures name in CategoryNames ==> |r| == 5
    ensures name !in CategoryNames ==> r == []
  {
    if name == "Electronics" then Electronics
    else if name == "Books" then Books
    else if name == "Clothing" then Clothing
    else if name == "Home & Kitchen" then HomeKitchen
    else if name == "Sports & Outdoors" then SportsOutdoors
    else if name == "Toys & Games" then ToysGames
    else if name == "Beauty & Personal Care" then BeautyPersonalCare
    else if name == "Automotive" then Automotive
    else if name == "Grocery" then Grocery
    else if name == "Garden & Tools" then GardenTools
    else []
  }

  const Electronics: seq<Entry> := [
    Entry("55\" 4K Smart TV", 5999900, 35, "55-inch 4K UHD HDR smart television with built-in apps."),
    Entry("Wireless Noise-Cancelling Headphones", 1999900, 120, "Over-ear Bluetooth headphones with ANC and 30h battery."),
    Entry("14\" Ultrabook Laptop", 10990000, 18, "Lightweight 14-inch laptop with SSD and 16GB RAM."),
    Entry("Bluetooth Speaker", 799000, 85, "Portable speaker with deep bass and IPX7 water resistance."),
    Entry("Smartphone 128GB", 6990000, 42, "6.1-inch display, dual camera, 5G, 128GB storage.")
  ]

  const Books: seq<Entry> := [
    Entry("Clean Code", 349900, 64, "A handbook of agile software craftsmanship."),
    Entry("The Pragmatic Programmer", 399900, 52, "Journey to mastery for modern developers."),
    Entry("Design Patterns", 499900, 40, "Elements of reusable object-oriented software."),
    Entry("Refactoring", 449900, 33, "Improving the design of existing code."),
    Entry("Domain-Driven Design", 599900, 28, "Tackling complexity in the heart of software.")
  ]

  const Clothing: seq<Entry> := [
    Entry("Men's Cotton T-Shirt", 149900, 200, "100% cotton classic fit tee."),
    Entry("Women's Denim Jacket", 499000, 75, "Stylish denim jacket with pockets."),
    Entry("Running Shoes", 890000, 60, "Breathable running shoes for everyday training."),
    Entry("Wool Sweater", 595000, 40, "Soft merino wool crew-neck sweater."),
    Entry("Baseball Cap", 199900, 150, "Adjustable cap with curved brim.")
  ]

  const HomeKitchen: seq<Entry> := [
    Entry("Air Fryer 5 Qt", 999900, 55, "Oil-less air fryer with digital controls."),
    Entry("Stainless Steel Cookware Set", 1299900, 22, "10-piece pots and pans set for all cooktops."),
    Entry("Memory Foam Pillow", 299900, 110, "Ergonomic pillow with washable cover."),
    Entry("Robot Vacuum", 2290000, 18, "Self-charging vacuum with app control."),
    Entry("Electric Kettle 1.7L", 349000, 90, "Fast-boil kettle with auto shut-off.")
  ]

  const SportsOutdoors: seq<Entry> := [
    Entry("Yoga Mat", 249900, 130, "Non-slip 6mm thick exercise mat."),
    Entry("Mountain Bike Helmet", 699900, 48, "Lightweight helmet with MIPS-like protection."),
    Entry("Adjustable Dumbbells 2x25lb", 1790000, 26, "Space-saving adjustable free weights."),
    Entry("Camping Tent 2-Person", 1190000, 34, "Water-resistant tent with vestibule."),
    Entry("Fitness Tracker", 599900, 77, "Activity tracker with heart rate and sleep monitor.")
  ]

  const ToysGames: seq<Entry> := [
    Entry("Building Blocks Set 500 pcs", 399900, 80, "Creative building set compatible with major brands."),
    Entry("Remote Control Car", 499900, 65, "Fast RC car with rechargeable battery."),
    Entry("Board Game Strategy", 299900, 70, "Competitive strategy game for 2-4 players."),
    Entry("Plush Teddy Bear", 199900, 95, "Soft plush bear, 30 cm tall."),
    Entry("Puzzle 1000 Pieces", 169900, 120, "High-quality jigsaw puzzle with poster.")
  ]

  const BeautyPersonalCare: seq<Entry> := [
    Entry("Facial Cleanser 200ml", 129900, 140, "Gentle daily face wash for all skin types."),
    Entry("Moisturizing Cream 50ml", 179900, 90, "Hydrating cream with hyaluronic acid."),
    Entry("Shampoo 400ml", 84900, 160, "Sulfate-free shampoo for shiny hair."),
    Entry("Electric Toothbrush", 399900, 55, "Rechargeable sonic toothbrush with timer."),
    Entry("Hair Dryer 1800W", 299900, 60, "Compact dryer with ionic technology.")
  ]

  const Automotive: seq<Entry> := [
    Entry("Car Phone Mount", 149900, 150, "Dashboard and windshield compatible mount."),
    Entry("All-Weather Floor Mats", 699900, 30, "Heavy-duty mats for most vehicles."),
    Entry("Portable Jump Starter", 799900, 24, "Compact 1000A jump starter with USB-C."),
    Entry("LED Headlight Bulbs", 499900, 42, "Bright, energy-efficient replacement bulbs."),
    Entry("Tire Inflator", 399900, 58, "Portable air compressor with pressure gauge.")
  ]

  const Grocery: seq<Entry> := [
    Entry("Organic Arabica Coffee Beans 1kg", 199900, 100, "Fresh medium roast whole beans."),
    Entry("Extra Virgin Olive Oil 1L", 159900, 85, "Cold-pressed olive oil, first harvest."),
    Entry("Whole Grain Pasta 500g", 24900, 200, "Durum wheat pasta, al dente texture."),
    Entry("Almond Butter 340g", 89900, 70, "No added sugar or palm oil."),
    Entry("Protein Bars Pack of 12", 219900, 60, "12g protein per bar, assorted flavors.")
  ]

  const GardenTools: seq<Entry> := [
    Entry("Cordless Drill 20V", 899900, 33, "Compact drill with 2 batteries and charger."),
    Entry("Gardening Tool Set 10 pcs", 399900, 44, "Hand tools set with tote bag."),
    Entry("Pruning Shears", 169900, 120, "Bypass pruner with sharp stainless blade."),
    Entry("Lawn Sprinkler", 249900, 65, "Adjustable oscillating sprinkler."),
    Entry("LED Work Light", 299900, 52, "Rechargeable flood light with stand.")
  ]
}
